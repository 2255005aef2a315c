/**
 * The Unity EditorPrefs store as a map from key to stored value.  A typed
 * read of a key that is missing, or that holds a value of another type,
 * yields the caller's fallback, as EditorPrefs.GetInt/GetBool/GetString do.
 */
module Prefs {

  /** A stored preference.  TimePref stands for a date-time kept as a formatted string. */
  datatype Pref = IntPref(i: int) | BoolPref(b: bool) | StringPref(s: string) | TimePref(t: int)

  type Store = map<string, Pref>

  /** The result of a property getter: the value it returns and the store after its write-back. */
  datatype Read<T> = Read(value: T, store: Store)

  function GetInt(p: Store, key: string, fallback: int): int {
    if key in p && p[key].IntPref? then p[key].i else fallback
  }

  function GetBool(p: Store, key: string, fallback: bool): bool {
    if key in p && p[key].BoolPref? then p[key].b else fallback
  }

  function GetString(p: Store, key: string, fallback: string): string {
    if key in p && p[key].StringPref? then p[key].s else fallback
  }

  function GetTime(p: Store, key: string, fallback: int): int {
    if key in p && p[key].TimePref? then p[key].t else fallback
  }

  function SetInt(p: Store, key: string, v: int): Store {
    p[key := IntPref(v)]
  }

  function SetBool(p: Store, key: string, v: bool): Store {
    p[key := BoolPref(v)]
  }

  function SetString(p: Store, key: string, v: string): Store {
    p[key := StringPref(v)]
  }

  function SetTime(p: Store, key: string, v: int): Store {
    p[key := TimePref(v)]
  }

  /** p and q hold the same thing under key k. */
  predicate AgreeOn(p: Store, q: Store, k: string) {
    (k in p <==> k in q) && (k in p ==> p[k] == q[k])
  }

  /** q agrees with p on every key outside `changed`. */
  ghost predicate SameExcept(p: Store, q: Store, changed: set<string>) {
    forall k :: k !in changed ==> AgreeOn(p, q, k)
  }

  lemma SameExceptTransitive(p: Store, q: Store, r: Store, c1: set<string>, c2: set<string>)
    requires SameExcept(p, q, c1) && SameExcept(q, r, c2)
    ensures SameExcept(p, r, c1 + c2)
  {
    forall k | k !in c1 + c2 ensures AgreeOn(p, r, k) {
      assert AgreeOn(p, q, k) && AgreeOn(q, r, k);
    }
  }

  /** A write changes only its own key. */
  lemma WriteIsLocal(p: Store, k: string, v: Pref)
    ensures SameExcept(p, p[k := v], {k})
  {
  }

  /** Reads under a key on which two stores agree give the same result. */
  lemma ReadsAgree(p: Store, q: Store, k: string)
    requires AgreeOn(p, q, k)
    ensures forall d :: GetInt(p, k, d) == GetInt(q, k, d)
    ensures forall d :: GetBool(p, k, d) == GetBool(q, k, d)
    ensures forall d :: GetString(p, k, d) == GetString(q, k, d)
    ensures forall d :: GetTime(p, k, d) == GetTime(q, k, d)
  {
  }

  /** Mathf.Clamp(int, int, int). */
  function Clamp(v: int, lo: int, hi: int): (r: int)
    requires lo <= hi
    ensures lo <= r <= hi
    ensures lo <= v <= hi ==> r == v
    ensures v < lo ==> r == lo
    ensures hi < v ==> r == hi
  {
    if v < lo then lo else if v > hi then hi else v
  }
}
