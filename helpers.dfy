/** Settings helpers: `defaults` merges caller settings over a handler's
    default settings, `tryFunction` resolves a setting that is either a
    function or the name of a property of a lookup object. */
module Helpers {
  import opened Js

  /** The settings `defaults(user, defaults)` builds: exactly the keys of
      `defaults`, each holding the caller's value when the caller owns the
      key (even a null or undefined value) and the default otherwise. */
  function Merged(user: map<string, Value>, defaults: map<string, Value>): map<string, Value> {
    map key | key in defaults :: if key in user then user[key] else defaults[key]
  }

  /** `defaults(userSettings, defaults)`: a for-in loop over the own keys of
      `defaults` that assigns each key of a fresh settings object. */
  method Defaults(userSettings: map<string, Value>, defaults: map<string, Value>)
    returns (settings: map<string, Value>)
    ensures settings.Keys == defaults.Keys
    ensures forall key :: key in defaults && key in userSettings ==> settings[key] == userSettings[key]
    ensures forall key :: key in defaults && key !in userSettings ==> settings[key] == defaults[key]
    ensures settings == Merged(userSettings, defaults)
  {
    settings := map[];
    var remaining := defaults.Keys;
    while remaining != {}
      invariant remaining <= defaults.Keys
      invariant settings.Keys == defaults.Keys - remaining
      invariant forall key :: key in settings ==>
        settings[key] == (if key in userSettings then userSettings[key] else defaults[key])
      decreases remaining
    {
      var key :| key in remaining;
      settings := settings[key := if key in userSettings then userSettings[key] else defaults[key]];
      remaining := remaining - {key};
    }
  }

  /** Keys the caller passes that have no default are dropped. */
  lemma MergedDropsUnknownKeys(user: map<string, Value>, defaults: map<string, Value>, key: string)
    requires key in user && key !in defaults
    ensures key !in Merged(user, defaults)
  {
  }

  /** Merging the merged settings over the same defaults changes nothing. */
  lemma MergedIdempotent(user: map<string, Value>, defaults: map<string, Value>)
    ensures Merged(Merged(user, defaults), defaults) == Merged(user, defaults)
  {
  }

  /** Merging over defaults that the caller covers completely yields just
      the caller's values for those keys. */
  lemma MergedCallerCovers(user: map<string, Value>, defaults: map<string, Value>)
    requires defaults.Keys <= user.Keys
    ensures Merged(user, defaults) == map key | key in defaults :: user[key]
  {
  }

  /** `lookup.hasOwnProperty(it)`: the property key is the text of `it`. */
  predicate Owns(lookup: map<string, Value>, it: Value) {
    KeyText(it).Some? && KeyText(it).value in lookup
  }

  /** `tryFunction(it, lookup)`; None stands for an undefined lookup. */
  function TryFunction(it: Value, lookup: Option<map<string, Value>>): (r: Value)
    ensures IsFunction(it) ==> r == it
    ensures !IsFunction(it) && lookup.Some? && Owns(lookup.value, it) ==> r == lookup.value[KeyText(it).value]
  {
    if IsFunction(it) then it
    else if lookup.None? || !Owns(lookup.value, it) then Null
    else lookup.value[KeyText(it).value]
  }

  /** A null result means either that nothing was resolved or that the named
      property itself holds null: callers cannot tell the two apart. */
  lemma {:induction false} TryFunctionNull(it: Value, lookup: Option<map<string, Value>>)
    ensures TryFunction(it, lookup) == Null <==>
      !IsFunction(it) &&
      (lookup.None? || !Owns(lookup.value, it) || lookup.value[KeyText(it).value] == Null)
  {
  }

  /** A string names a property of the lookup object, whatever that
      property holds (it need not be a function). */
  lemma TryFunctionNamed(name: string, lookup: map<string, Value>)
    ensures TryFunction(Str(name), Some(lookup)) == if name in lookup then lookup[name] else Null
  {
  }

  /** The result is `it` itself, null, or a value the lookup owns. */
  lemma TryFunctionRange(it: Value, lookup: Option<map<string, Value>>)
    ensures var r := TryFunction(it, lookup);
      (IsFunction(it) && r == it) || r == Null || (lookup.Some? && r in lookup.value.Values)
  {
    if !IsFunction(it) && lookup.Some? && Owns(lookup.value, it) {
      assert TryFunction(it, lookup) == lookup.value[KeyText(it).value];
    }
  }
}
