/** The local progress store: a map from item id to watch progress, kept as
    JSON under one local-storage key, with a change event on every save.
    Without a window (outside a browser) reads give the empty map and saves
    do nothing. */
module LocalProgress {
  import opened Wrappers
  import opened Browser

  const STORAGE_KEY := "koflix:progress"
  const PROGRESS_EVENT := "koflix:progress"

  /** `value` is the watched fraction; the others are plain numbers. */
  datatype ProgressEntry = ProgressEntry(value: real, position: real, duration: real, updatedAt: real)

  type ProgressMap = map<string, ProgressEntry>

  /** What `JSON.parse` yields, as far as the store looks at it: a falsy
      value (`null`, `false`, `0`, `""`), another non-object, or an object
      read as a progress map. */
  datatype Parsed = Falsy | Primitive | Object(entries: ProgressMap)

  /** `JSON.parse` (`None` when it throws) and `JSON.stringify` on progress maps. */
  datatype Codec = Codec(parse: string -> Option<Parsed>, stringify: ProgressMap -> string)

  /** The codec reads back the map `m` it wrote: the text is not empty and
      parses to the same map. JSON does this for maps whose numbers are
      doubles printed in full; a value such as exactly 1/3 has no such text. */
  predicate ReadsBack(codec: Codec, m: ProgressMap) {
    codec.stringify(m) != "" && codec.parse(codec.stringify(m)) == Some(Object(m))
  }

  /** Every map can be read back by some codec, so `ReadsBack` premises are not vacuous. */
  lemma ReadsBackSatisfiable(m: ProgressMap)
    ensures ReadsBack(Codec(_ => Some(Object(m)), _ => "{}"), m)
  {
  }

  /** The storage slot of a window: `None` when there is no window. */
  function Slot(win: Window?): Option<map<string, string>>
    reads win
  {
    if win == null then None else Some(win.localStorage)
  }

  function Max(a: real, b: real): real { if a >= b then a else b }

  function Min(a: real, b: real): real { if a <= b then a else b }

  /** `Math.min(hi, Math.max(lo, value))`, by default into [0, 1]. */
  function Clamp(value: real, lo: real := 0.0, hi: real := 1.0): (r: real)
    ensures lo <= hi ==> lo <= r <= hi
    ensures lo <= value <= hi ==> r == value
    ensures lo <= hi && value < lo ==> r == lo
    ensures value > hi ==> r == hi
  {
    Min(hi, Max(lo, value))
  }

  lemma ClampExamples()
    ensures Clamp(1.4) == 1.0
    ensures Clamp(-0.2) == 0.0
  {
  }

  /** The invariant of stored entries: a fraction in [0, 1] and no negative times. */
  predicate WellFormed(e: ProgressEntry) {
    0.0 <= e.value <= 1.0 && e.position >= 0.0 && e.duration >= 0.0
  }

  /** The entry a save stores: fraction clamped, times floored at zero, timestamp kept. */
  function Normalize(e: ProgressEntry): (n: ProgressEntry)
    ensures WellFormed(n)
    ensures n.value == Clamp(e.value)
    ensures n.duration == Max(0.0, e.duration)
    ensures n.updatedAt == e.updatedAt
    ensures WellFormed(e) ==> n == e
    ensures e.position >= 0.0 ==> n.position == e.position
    ensures e.position < 0.0 ==> n.position == 0.0
  {
    ProgressEntry(Clamp(e.value), Max(0.0, e.position), Max(0.0, e.duration), e.updatedAt)
  }

  /** `loadProgressMap`: the stored map, or the empty map when there is no
      window, nothing (or the empty string) is stored, the stored text does
      not parse, or it parses to something that is not an object. */
  function LoadProgressMap(slot: Option<map<string, string>>, codec: Codec): (m: ProgressMap)
    ensures slot.None? ==> m == map[]
    ensures slot.Some? && (STORAGE_KEY !in slot.value || slot.value[STORAGE_KEY] == "") ==> m == map[]
    ensures slot.Some? && STORAGE_KEY in slot.value && slot.value[STORAGE_KEY] != "" ==>
              var parsed := codec.parse(slot.value[STORAGE_KEY]);
              m == if parsed.Some? && parsed.value.Object? then parsed.value.entries else map[]
  {
    if slot.None? || STORAGE_KEY !in slot.value || slot.value[STORAGE_KEY] == "" then map[]
    else
      var parsed := codec.parse(slot.value[STORAGE_KEY]);
      if parsed.Some? && parsed.value.Object? then parsed.value.entries else map[]
  }

  /** `getProgressEntry`: the stored entry of `id`, `undefined` when it has none. */
  function GetProgressEntry(slot: Option<map<string, string>>, codec: Codec, id: string): (r: Option<ProgressEntry>)
    ensures r.Some? <==> id in LoadProgressMap(slot, codec)
    ensures r.Some? ==> r.value == LoadProgressMap(slot, codec)[id]
    ensures slot.None? ==> r.None?
  {
    var m := LoadProgressMap(slot, codec);
    if id in m then Some(m[id]) else None
  }

  /** The map a save writes back: the loaded map with `id` set to the normalized entry. */
  function Written(slot: Option<map<string, string>>, codec: Codec, id: string, entry: ProgressEntry): ProgressMap
  {
    LoadProgressMap(slot, codec)[id := Normalize(entry)]
  }

  /** The storage a save leaves behind: the written map, printed into the
      slot as a whole. This is the specification of the method
      `SaveProgressEntry` below, for use in lemmas. */
  function SavedSlot(slot: Option<map<string, string>>, codec: Codec, id: string, entry: ProgressEntry)
    : Option<map<string, string>>
  {
    if slot.None? then None
    else Some(slot.value[STORAGE_KEY := codec.stringify(Written(slot, codec, id, entry))])
  }

  /** `saveProgressEntry`: with a window, store the normalized entry under
      `id` and dispatch one change event naming `id`; without one, nothing. */
  method SaveProgressEntry(win: Window?, codec: Codec, id: string, entry: ProgressEntry)
    modifies win
    ensures Slot(win) == SavedSlot(old(Slot(win)), codec, id, entry)
    ensures win != null ==> win.events == old(win.events) + [CustomEvent(PROGRESS_EVENT, id)]
  {
    if win == null {
      return;
    }
    var m := LoadProgressMap(Some(win.localStorage), codec);
    m := m[id := Normalize(entry)];
    win.localStorage := win.localStorage[STORAGE_KEY := codec.stringify(m)];
    win.events := win.events + [CustomEvent(PROGRESS_EVENT, id)];
  }

  /** After a save, reading `id` gives the normalized entry, which is well formed. */
  lemma SaveThenGet(slot: Option<map<string, string>>, codec: Codec, id: string, entry: ProgressEntry)
    requires slot.Some? && ReadsBack(codec, Written(slot, codec, id, entry))
    ensures GetProgressEntry(SavedSlot(slot, codec, id, entry), codec, id) == Some(Normalize(entry))
    ensures WellFormed(GetProgressEntry(SavedSlot(slot, codec, id, entry), codec, id).value)
  {
    var m := LoadProgressMap(slot, codec)[id := Normalize(entry)];
    assert codec.parse(codec.stringify(m)) == Some(Object(m));
  }

  /** A save changes only `id`: every other id reads as before, and every
      other storage key keeps its value. */
  lemma SaveKeepsOthers(slot: Option<map<string, string>>, codec: Codec, id: string, entry: ProgressEntry, other: string)
    requires slot.Some? && ReadsBack(codec, Written(slot, codec, id, entry)) && other != id
    ensures GetProgressEntry(SavedSlot(slot, codec, id, entry), codec, other) == GetProgressEntry(slot, codec, other)
    ensures forall key :: key in slot.value && key != STORAGE_KEY ==>
              key in SavedSlot(slot, codec, id, entry).value &&
              SavedSlot(slot, codec, id, entry).value[key] == slot.value[key]
  {
    var m := LoadProgressMap(slot, codec)[id := Normalize(entry)];
    assert codec.parse(codec.stringify(m)) == Some(Object(m));
  }

  /** Last write wins: two saves to one id leave exactly what the second save alone leaves. */
  lemma SaveTwice(slot: Option<map<string, string>>, codec: Codec, id: string, first: ProgressEntry, second: ProgressEntry)
    requires slot.Some? ==> ReadsBack(codec, Written(slot, codec, id, first))
    ensures SavedSlot(SavedSlot(slot, codec, id, first), codec, id, second) == SavedSlot(slot, codec, id, second)
  {
    if slot.Some? {
      var m := LoadProgressMap(slot, codec)[id := Normalize(first)];
      assert codec.parse(codec.stringify(m)) == Some(Object(m));
      var once := SavedSlot(slot, codec, id, first).value;
      assert LoadProgressMap(Some(once), codec) == m;
      assert m[id := Normalize(second)] == LoadProgressMap(slot, codec)[id := Normalize(second)];
      var text := codec.stringify(LoadProgressMap(slot, codec)[id := Normalize(second)]);
      assert once[STORAGE_KEY := text] == slot.value[STORAGE_KEY := text];
    }
  }

  /** A display item with an id, an optional progress fraction and its other fields. */
  datatype Item<A> = Item(id: string, progress: Option<real>, fields: A)

  /** `{ ...item, progress: entry.value }` when `id` has an entry, else the item itself. */
  function Overlay<A>(item: Item<A>, m: ProgressMap): Item<A>
  {
    if item.id in m then item.(progress := Some(m[item.id].value)) else item
  }

  /** `applyProgress` on a loaded map: the same items in the same order,
      each with its stored fraction when it has one. */
  function ApplyProgress<A>(items: seq<Item<A>>, m: ProgressMap): (r: seq<Item<A>>)
    ensures |r| == |items|
    ensures forall i :: 0 <= i < |items| ==> r[i].id == items[i].id && r[i].fields == items[i].fields
    ensures forall i :: 0 <= i < |items| && items[i].id !in m ==> r[i] == items[i]
    ensures forall i :: 0 <= i < |items| && items[i].id in m ==> r[i].progress == Some(m[items[i].id].value)
  {
    if items == [] then [] else [Overlay(items[0], m)] + ApplyProgress(items[1..], m)
  }

  /** Applying the same store twice is applying it once. */
  lemma {:induction false} ApplyProgressIdempotent<A>(items: seq<Item<A>>, m: ProgressMap)
    ensures ApplyProgress(ApplyProgress(items, m), m) == ApplyProgress(items, m)
  {
    if items != [] {
      ApplyProgressIdempotent(items[1..], m);
    }
  }

  /** `applyProgress` as the source calls it, on the map loaded from storage. */
  function ApplyStoredProgress<A>(slot: Option<map<string, string>>, codec: Codec, items: seq<Item<A>>): (r: seq<Item<A>>)
    ensures |r| == |items|
    ensures forall i :: 0 <= i < |items| ==> r[i].id == items[i].id && r[i].fields == items[i].fields
    ensures forall i :: 0 <= i < |items| && GetProgressEntry(slot, codec, items[i].id).None? ==> r[i] == items[i]
    ensures forall i :: 0 <= i < |items| && GetProgressEntry(slot, codec, items[i].id).Some? ==>
              r[i].progress == Some(GetProgressEntry(slot, codec, items[i].id).value.value)
    ensures slot.None? ==> r == items
  {
    ApplyProgress(items, LoadProgressMap(slot, codec))
  }

  /** After saving `id`, every item with that id shows the clamped fraction. */
  lemma ApplyAfterSave<A>(slot: Option<map<string, string>>, codec: Codec, id: string, entry: ProgressEntry,
                          items: seq<Item<A>>, i: nat)
    requires slot.Some? && ReadsBack(codec, Written(slot, codec, id, entry)) && i < |items| && items[i].id == id
    ensures ApplyStoredProgress(SavedSlot(slot, codec, id, entry), codec, items)[i].progress == Some(Clamp(entry.value))
  {
    SaveThenGet(slot, codec, id, entry);
  }
}
