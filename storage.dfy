/** The browser's `localStorage` as the pages use it: a map from keys to
    strings, read with `getItem` (missing keys are null) and written with
    `setItem`. The booking settings page writes the interval and capacity;
    the settings page and the today-board read them back. */
module Storage {
  import opened Seqs
  import opened Text

  type Store = map<string, string>

  const IntervalKey: string := "bookingInterval"
  const CapacityKey: string := "bookingCapacity"

  /** `getItem(key)`: the stored string, or null (None). */
  function GetItem(store: Store, key: string): Option<string>
  {
    if key in store then Some(store[key]) else None
  }

  /** The loader's `if (saved) { set(Number(saved)) }`: a missing or empty
      string keeps the current value; otherwise the stored numeral's value is
      taken as it is, with no range check. A string `JsNumber` does not read
      keeps the current value here (see the README). */
  function LoadedNumber(store: Store, key: string, current: int): int
  {
    match GetItem(store, key)
    case None => current
    case Some(saved) =>
      if saved == "" then current
      else match JsNumber(saved)
        case Some(v) => v
        case None => current
  }

  /** `handleBookingIntervalSave`: `setItem` of `String(interval)` and `String(capacity)`. */
  function SaveBookingSettings(store: Store, interval: int, capacity: int): (r: Store)
    ensures IntervalKey in r && CapacityKey in r
    ensures forall k :: k in store && k != IntervalKey && k != CapacityKey ==> k in r && r[k] == store[k]
  {
    store[IntervalKey := IntToString(interval)][CapacityKey := IntToString(capacity)]
  }

  /** What the settings page saves, every loader reads back, whatever was
      stored before and whatever the loader held. */
  lemma SaveThenLoad(store: Store, interval: int, capacity: int, heldInterval: int, heldCapacity: int)
    ensures var saved := SaveBookingSettings(store, interval, capacity);
      LoadedNumber(saved, IntervalKey, heldInterval) == interval
      && LoadedNumber(saved, CapacityKey, heldCapacity) == capacity
  {
    var saved := SaveBookingSettings(store, interval, capacity);
    assert IntervalKey != CapacityKey;
    assert saved[IntervalKey] == IntToString(interval);
    JsNumberOfIntToString(interval);
    JsNumberOfIntToString(capacity);
  }

  /** Nothing stored under a key: the loader keeps what it held. */
  lemma LoadMissingKeeps(store: Store, key: string, current: int)
    requires key !in store
    ensures LoadedNumber(store, key, current) == current
  {
  }
}
