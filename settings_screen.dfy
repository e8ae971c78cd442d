/**
 * The notification settings (screens/SettingsScreen.tsx): one on/off switch per
 * task category, loaded from local storage when the screen mounts and, on each
 * toggle, saved back whole before the push-topic registration for that one
 * category is requested.
 *
 * The stored text is abstracted to the map it serialises (JSON.stringify and
 * JSON.parse are taken as inverse identities); the storage write, the topic
 * requests and the console are entries of an effect log. The category list is
 * a parameter.
 */
module SettingsScreen {

  /** Subscription flags by category; a category that is absent counts as off. */
  type Subscriptions = map<string, bool>

  const StorageKey: string := "subscriptions"

  /** What `storage.getString('subscriptions')` can return. */
  datatype StoredValue =
    | Missing                                  // undefined
    | EmptyText                                // '', which is falsy
    | Serialized(subscriptions: Subscriptions) // a JSON object of flags

  datatype Effect =
    | Persisted(key: string, value: StoredValue) // storage.set(key, JSON.stringify(..))
    | SubscribeToTopic(topic: string)            // messaging().subscribeToTopic(..)
    | UnsubscribeFromTopic(topic: string)        // messaging().unsubscribeFromTopic(..)
    | ConsoleLog(line: string)
    | ConsoleError(line: string)

  /** The switch the screen shows for `category`: `subscriptions[category] || false`. */
  predicate Displayed(subs: Subscriptions, category: string)
  {
    category in subs && subs[category]
  }

  /** The settings of a first visit: every category present and off. */
  function AllUnsubscribed(categories: seq<string>): (r: Subscriptions)
    ensures forall c :: c in r <==> c in categories
    ensures forall c :: !Displayed(r, c)
  {
    map c | c in categories :: false
  }

  /** The settings the screen shows once mounted, given what storage holds. */
  function Loaded(saved: StoredValue, categories: seq<string>): (r: Subscriptions)
    ensures saved.Serialized? ==> r == saved.subscriptions
    ensures !saved.Serialized? ==> r.Keys == set c | c in categories
    ensures !saved.Serialized? ==> forall c :: !Displayed(r, c)
  {
    if saved.Serialized? then saved.subscriptions else AllUnsubscribed(categories)
  }

  /** The settings after toggling `category`. */
  function Toggled(subs: Subscriptions, category: string): (r: Subscriptions)
    ensures Displayed(r, category) == !Displayed(subs, category)
    ensures category !in subs ==> r[category]
    ensures r.Keys == subs.Keys + {category}
    ensures forall c :: c in subs && c != category ==> r[c] == subs[c]
  {
    subs[category := !Displayed(subs, category)]
  }

  /**
   * The effects of toggling `category` in `subs`: the whole new map is saved,
   * then one topic request is made for that category, and its outcome is
   * logged. `callSucceeds` says whether the topic request resolves.
   */
  function ToggleEffects(subs: Subscriptions, category: string, callSucceeds: bool): (r: seq<Effect>)
    ensures |r| == 3
    ensures r[0] == Persisted(StorageKey, Serialized(Toggled(subs, category)))
    ensures TopicCalls(r) == [TopicCall(Displayed(Toggled(subs, category), category), category)]
    ensures TopicCalls(r[1..]) == TopicCalls(r)
    // the save and the request do not depend on the request's outcome; a
    // failure is only logged
    ensures r[1] == TopicCall(Displayed(Toggled(subs, category), category), category)
    ensures r[2] == if callSucceeds then ConsoleLog(if r[1].SubscribeToTopic? then "Subscribed to " + category else "Unsubscribed from " + category)
                    else ConsoleError("Error toggling subscription for " + category + ":")
  {
    var newStatus := !Displayed(subs, category);
    var save := Persisted(StorageKey, Serialized(subs[category := newStatus]));
    var call := TopicCall(newStatus, category);
    var outcome :=
      if !callSucceeds then ConsoleError("Error toggling subscription for " + category + ":")
      else if newStatus then ConsoleLog("Subscribed to " + category)
      else ConsoleLog("Unsubscribed from " + category);
    var r := [save, call, outcome];
    assert TopicCalls([outcome]) == [] by { assert [outcome][1..] == []; }
    assert TopicCalls([call, outcome]) == [call] by { assert [call, outcome][1..] == [outcome]; }
    assert r[1..] == [call, outcome];
    r
  }

  /** The topic request for a switch now at `on`. */
  function TopicCall(on: bool, topic: string): Effect
  {
    if on then SubscribeToTopic(topic) else UnsubscribeFromTopic(topic)
  }

  /** The topic requests in `effects`, in order. */
  function TopicCalls(effects: seq<Effect>): seq<Effect>
  {
    if effects == [] then []
    else
      var rest := TopicCalls(effects[1..]);
      if effects[0].SubscribeToTopic? || effects[0].UnsubscribeFromTopic? then [effects[0]] + rest else rest
  }

  lemma {:induction false} TopicCallsAppend(a: seq<Effect>, b: seq<Effect>)
    ensures TopicCalls(a + b) == TopicCalls(a) + TopicCalls(b)
    decreases |a|
  {
    if a == [] {
      assert a + b == b;
    } else {
      assert (a + b)[1..] == a[1..] + b;
      TopicCallsAppend(a[1..], b);
    }
  }

  /**
   * Toggling a category twice shows the switch as it was, puts the flag back
   * when the category was stored already, and requests exactly one subscribe
   * and one unsubscribe, both for that category; the outcome of either request
   * makes no difference.
   */
  lemma ToggleTwice(subs: Subscriptions, category: string, firstSucceeds: bool, secondSucceeds: bool)
    ensures Displayed(Toggled(Toggled(subs, category), category), category) == Displayed(subs, category)
    ensures category in subs ==> Toggled(Toggled(subs, category), category) == subs
    ensures category !in subs ==> Toggled(Toggled(subs, category), category) == subs[category := false]
    ensures var calls := TopicCalls(ToggleEffects(subs, category, firstSucceeds)
                                    + ToggleEffects(Toggled(subs, category), category, secondSucceeds));
            multiset(calls) == multiset{SubscribeToTopic(category), UnsubscribeFromTopic(category)}
  {
    TopicCallsAppend(ToggleEffects(subs, category, firstSucceeds),
                     ToggleEffects(Toggled(subs, category), category, secondSucceeds));
  }

  /** What a toggle saves is what the next mount loads. */
  lemma ReloadAfterToggle(subs: Subscriptions, category: string, categories: seq<string>, callSucceeds: bool)
    ensures var saved := ToggleEffects(subs, category, callSucceeds)[0].value;
            Loaded(saved, categories) == Toggled(subs, category)
  {
  }

  /** The default settings, built one category at a time (the `forEach` of the mount effect). */
  method BuildDefaults(categories: seq<string>) returns (defaults: Subscriptions)
    ensures defaults == AllUnsubscribed(categories)
  {
    defaults := map[];
    var i := 0;
    while i < |categories|
      invariant 0 <= i <= |categories|
      invariant defaults == AllUnsubscribed(categories[..i])
    {
      assert categories[..i + 1] == categories[..i] + [categories[i]];
      defaults := defaults[categories[i] := false];
      i := i + 1;
    }
    assert categories[..i] == categories;
  }

  /** The screen: its `subscriptions` state, the stored value under StorageKey, and the effect log. */
  class SettingsController {
    var subscriptions: Subscriptions
    var saved: StoredValue
    var effects: seq<Effect>

    /** The screen before its mount effect has run: `useState({})`. */
    constructor (stored: StoredValue)
      ensures subscriptions == map[] && saved == stored && effects == []
    {
      subscriptions := map[];
      saved := stored;
      effects := [];
    }

    /** The mount effect: use what storage holds, or every category off. */
    method Load(categories: seq<string>)
      modifies this
      ensures subscriptions == Loaded(old(saved), categories)
      ensures saved == old(saved) && effects == old(effects)
    {
      if saved.Serialized? {
        subscriptions := saved.subscriptions;
      } else {
        subscriptions := BuildDefaults(categories);
      }
    }

    /**
     * toggleSubscription: flip the flag, save the whole map, then request the
     * topic change. A failed request is logged and nothing is rolled back.
     */
    method Toggle(category: string, callSucceeds: bool)
      modifies this
      ensures subscriptions == Toggled(old(subscriptions), category)
      ensures saved == Serialized(subscriptions)
      ensures effects == old(effects) + ToggleEffects(old(subscriptions), category, callSucceeds)
    {
      var newStatus := !(category in subscriptions && subscriptions[category]);
      var updated := subscriptions[category := newStatus];
      subscriptions := updated;
      saved := Serialized(updated);
      effects := effects + [Persisted(StorageKey, Serialized(updated))];
      if newStatus {
        effects := effects + [SubscribeToTopic(category)];
      } else {
        effects := effects + [UnsubscribeFromTopic(category)];
      }
      if !callSucceeds {
        effects := effects + [ConsoleError("Error toggling subscription for " + category + ":")];
      } else if newStatus {
        effects := effects + [ConsoleLog("Subscribed to " + category)];
      } else {
        effects := effects + [ConsoleLog("Unsubscribed from " + category)];
      }
    }
  }
}
