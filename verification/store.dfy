/** The persisted dark-mode preference: a boolean cell decoded from the
    browser's key-value storage at start-up, whose subscriber writes every
    value back to storage and mirrors it as the `dark` class on the document
    root. */
module Store {

  /** The storage key of the preference and the class that marks dark mode. */
  const DarkModeKey: string := "darkMode"
  const DarkClass: string := "dark"

  datatype Option<T> = None | Some(value: T)

  /** The external state the cell touches: the key-value storage and the
      class list of the document root. */
  datatype Page = Page(storage: map<string, string>, classes: set<string>)

  /** Storage lookup: no value for a key that is absent. */
  function GetItem(storage: map<string, string>, key: string): Option<string>
  {
    if key in storage then Some(storage[key]) else None
  }

  /** A boolean stored as a string, as storage does with a non-string value. */
  function Stringify(b: bool): string
  {
    if b then "true" else "false"
  }

  /** The start-up value: only the exact string "true" decodes to true. */
  function Decode(storage: map<string, string>): (b: bool)
    ensures b <==> DarkModeKey in storage && storage[DarkModeKey] == "true"
  {
    GetItem(storage, DarkModeKey) == Some("true")
  }

  /** What the subscriber does with a value: store it and set or clear the
      dark class. Decoding the new storage gives the value back, the class
      mirrors it, and no other key or class changes. */
  function Apply(p: Page, value: bool): (q: Page)
    ensures Decode(q.storage) == value
    ensures DarkModeKey in q.storage && q.storage[DarkModeKey] in {"true", "false"}
    ensures DarkClass in q.classes <==> value
    ensures q.storage.Keys == p.storage.Keys + {DarkModeKey}
    ensures forall k :: k in p.storage && k != DarkModeKey ==> q.storage[k] == p.storage[k]
    ensures q.classes - {DarkClass} == p.classes - {DarkClass}
  {
    Page(p.storage[DarkModeKey := Stringify(value)],
         if value then p.classes + {DarkClass} else p.classes - {DarkClass})
  }

  /** The page after the subscriber has seen each of `values`, in order. */
  function Replay(p: Page, values: seq<bool>): Page
    decreases |values|
  {
    if values == [] then p else Replay(Apply(p, values[0]), values[1..])
  }

  /** The state the cell keeps: the stored string and the class both agree
      with the current value. */
  predicate Mirrors(p: Page, value: bool)
  {
    GetItem(p.storage, DarkModeKey) == Some(Stringify(value)) && (DarkClass in p.classes <==> value)
  }

  /** A later value overrides an earlier one completely: applying `a` and
      then `b` leaves the same page as applying `b` alone. */
  lemma LastWins(p: Page, a: bool, b: bool)
    ensures Apply(Apply(p, a), b) == Apply(p, b)
  {
  }

  /** Setting the same value twice leaves storage and classes as one set
      does. */
  lemma Idempotent(p: Page, b: bool)
    ensures Apply(Apply(p, b), b) == Apply(p, b)
  {
  }

  /** Over a whole session only the last value seen matters. */
  lemma {:induction false} ReplayLastWins(p: Page, values: seq<bool>)
    requires values != []
    ensures Replay(p, values) == Apply(p, values[|values| - 1])
    decreases |values|
  {
    if |values| > 1 {
      var rest := values[1..];
      ReplayLastWins(Apply(p, values[0]), rest);
      LastWins(p, values[0], rest[|rest| - 1]);
    }
  }

  /** Start-up rewrites the stored preference in canonical form: a stored
      "true" stays, any other stored string, or none, becomes "false". */
  lemma InitNormalises(p: Page)
    ensures Apply(p, Decode(p.storage)).storage[DarkModeKey]
         == if GetItem(p.storage, DarkModeKey) == Some("true") then "true" else "false"
  {
  }

  /** The subscriber establishes the invariant the cell keeps. */
  lemma ApplyMirrors(p: Page, value: bool)
    ensures Mirrors(Apply(p, value), value)
  {
  }

  /** The dark-mode cell together with the external state its subscriber
      writes. */
  class DarkModeStore {
    var storage: map<string, string>
    var classes: set<string>
    var value: bool

    function Snapshot(): Page
      reads this
    {
      Page(storage, classes)
    }

    ghost predicate Valid()
      reads this
    {
      Mirrors(Snapshot(), value)
    }

    /** Decodes the stored preference and runs the subscriber on it once,
        as a new subscriber is called with the current value. */
    constructor Init(storage0: map<string, string>, classes0: set<string>)
      ensures Valid()
      ensures value == Decode(storage0)
      ensures Snapshot() == Apply(Page(storage0, classes0), value)
    {
      storage := storage0;
      classes := classes0;
      value := Decode(storage0);
      new;
      Notify();
    }

    /** Replaces the value and runs the subscriber on the new one. On a
        valid cell, setting the current value again changes nothing, so
        running the subscriber for an unchanged value is unobservable. */
    method Set(b: bool)
      modifies this
      ensures Valid()
      ensures value == b
      ensures Snapshot() == Apply(old(Snapshot()), b)
      ensures old(Valid()) && b == old(value) ==> Snapshot() == old(Snapshot())
    {
      value := b;
      Notify();
    }

    /** The subscriber: writes the value to storage and adds or removes the
        dark class. */
    method Notify()
      modifies this
      ensures Valid()
      ensures value == old(value)
      ensures Snapshot() == Apply(old(Snapshot()), value)
    {
      storage := storage[DarkModeKey := Stringify(value)];
      if value {
        classes := classes + {DarkClass};
      } else {
        classes := classes - {DarkClass};
      }
      ApplyMirrors(old(Snapshot()), value);
    }
  }
}
