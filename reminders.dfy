/** The meal reminders: the settings record and its updates, the sorted list of reminder
    times, and the once-per-time-per-day notification rule of the minute-by-minute checker.
    The browser's `localStorage` keys `lastNotified_<time>` become a map field, the clock and
    the notification permission become parameters, and the interval timer becomes a flag. */
module Reminders {
  import opened Options
  import opened Text
  import opened Sequences
  import opened Entries

  datatype ReminderSettings = ReminderSettings(enabled: bool, times: seq<string>, lastNotified: Option<string>)

  /** `DEFAULT_SETTINGS`: disabled, reminders at breakfast, lunch and dinner. */
  const DefaultSettings := ReminderSettings(false, ["09:00", "13:00", "19:00"], None)

  /** A `Partial<ReminderSettings>`: `None` for a field the update does not carry. */
  datatype SettingsUpdate = SettingsUpdate(enabled: Option<bool>, times: Option<seq<string>>,
                                           lastNotified: Option<Option<string>>)

  /** `{ ...current, ...updates }`: each field the update carries overrides the current one,
      and each field it leaves out keeps its current value. */
  function Merge(current: ReminderSettings, u: SettingsUpdate): (r: ReminderSettings)
    ensures r.enabled == (if u.enabled.Some? then u.enabled.value else current.enabled)
    ensures r.times == (if u.times.Some? then u.times.value else current.times)
    ensures r.lastNotified == (if u.lastNotified.Some? then u.lastNotified.value else current.lastNotified)
  {
    ReminderSettings(
      u.enabled.GetOr(current.enabled),
      u.times.GetOr(current.times),
      u.lastNotified.GetOr(current.lastNotified))
  }

  /** An update that carries every field of `s`. */
  function FullUpdate(s: ReminderSettings): SettingsUpdate
  {
    SettingsUpdate(Some(s.enabled), Some(s.times), Some(s.lastNotified))
  }

  const NoUpdate := SettingsUpdate(None, None, None)

  /** An update that carries every field replaces the settings... */
  lemma MergeFull(current: ReminderSettings, s: ReminderSettings)
    ensures Merge(current, FullUpdate(s)) == s
  {
  }

  /** ...an update that carries none keeps them... */
  lemma MergeNothing(current: ReminderSettings)
    ensures Merge(current, NoUpdate) == current
  {
  }

  /** ...so applying the same update twice is applying it once. */
  lemma MergeIdempotent(current: ReminderSettings, u: SettingsUpdate)
    ensures Merge(Merge(current, u), u) == Merge(current, u)
  {
  }

  // ---------------------------------------------------------------------------------------
  // The reminder times

  /** The default string order of `Array.prototype.sort`: character by character, a proper
      prefix first. */
  predicate LexLe(a: string, b: string)
    decreases |a|
  {
    if a == [] then true
    else if b == [] then false
    else if a[0] != b[0] then a[0] < b[0]
    else LexLe(a[1..], b[1..])
  }

  lemma {:induction false} LexLeTotal(a: string, b: string)
    ensures LexLe(a, b) || LexLe(b, a)
    decreases |a|
  {
    if a != [] && b != [] && a[0] == b[0] {
      LexLeTotal(a[1..], b[1..]);
    }
  }

  lemma {:induction false} LexLeTransitive(a: string, b: string, c: string)
    requires LexLe(a, b) && LexLe(b, c)
    ensures LexLe(a, c)
    decreases |a|
  {
    if a != [] && a[0] == b[0] && b[0] == c[0] {
      LexLeTransitive(a[1..], b[1..], c[1..]);
    }
  }

  lemma {:induction false} LexLeAntisymmetric(a: string, b: string)
    requires LexLe(a, b) && LexLe(b, a)
    ensures a == b
    decreases |a|
  {
    if a != [] {
      LexLeAntisymmetric(a[1..], b[1..]);
      assert a == [a[0]] + a[1..] && b == [b[0]] + b[1..];
    }
  }

  lemma LexLePreorder()
    ensures TotalPreorder(LexLe)
  {
    forall a, b ensures LexLe(a, b) || LexLe(b, a) {
      LexLeTotal(a, b);
    }
    forall a, b, c | LexLe(a, b) && LexLe(b, c) ensures LexLe(a, c) {
      LexLeTransitive(a, b, c);
    }
  }

  /** `addReminderTime`: a new time joins the list, which is then sorted; a time already
      present leaves the settings as they are. */
  function AddReminderTime(current: ReminderSettings, time: string): (r: ReminderSettings)
    ensures time in r.times
    ensures forall t :: t in current.times ==> t in r.times
    ensures forall t :: t in r.times ==> t == time || t in current.times
    ensures r.enabled == current.enabled && r.lastNotified == current.lastNotified
    ensures time in current.times ==> r == current
  {
    if time in current.times then current
    else
      var grown := current.times + [time];
      var sorted := Sort(grown, LexLe);
      assert forall t :: t in sorted <==> t in multiset(sorted);
      assert forall t :: t in grown <==> t in multiset(grown);
      current.(times := sorted)
  }

  /** Adding the same time twice is adding it once. */
  lemma AddReminderTimeIdempotent(current: ReminderSettings, time: string)
    ensures AddReminderTime(AddReminderTime(current, time), time) == AddReminderTime(current, time)
  {
  }

  /** `removeReminderTime`: every occurrence of the time goes. */
  function RemoveReminderTime(current: ReminderSettings, time: string): (r: ReminderSettings)
    ensures time !in r.times
    ensures forall t :: t in current.times && t != time ==> t in r.times
    ensures forall t :: t in r.times ==> t in current.times
    ensures r.enabled == current.enabled && r.lastNotified == current.lastNotified
  {
    current.(times := Filter(current.times, (t: string) => t != time))
  }

  /** Adding a new time keeps every old time, adds that one once, leaves the list sorted,
      creates no duplicate and changes no other field. */
  lemma AddReminderTimeAbsent(current: ReminderSettings, time: string)
    requires time !in current.times
    ensures var r := AddReminderTime(current, time);
      && multiset(r.times) == multiset(current.times) + multiset{time}
      && SortedBy(r.times, LexLe)
      && (Distinct(current.times) ==> Distinct(r.times))
      && r.enabled == current.enabled && r.lastNotified == current.lastNotified
  {
    var grown := current.times + [time];
    var r := AddReminderTime(current, time);
    LexLePreorder();
    SortSorted(grown, LexLe);
    if Distinct(current.times) {
      assert Distinct(grown);
      DistinctBySub(r.times, grown, (t: string) => t);
    }
  }

  /** Removing a time leaves none of it, keeps every other time as often as it was there and
      changes no other field. */
  lemma RemoveReminderTimeKeeps(current: ReminderSettings, time: string)
    ensures var r := RemoveReminderTime(current, time);
      && time !in r.times
      && (forall t :: t != time ==> multiset(r.times)[t] == multiset(current.times)[t])
      && r.enabled == current.enabled && r.lastNotified == current.lastNotified
  {
    RemoveCounts(current.times, time);
  }

  lemma {:induction false} RemoveCounts(times: seq<string>, time: string)
    ensures forall t :: t != time ==> multiset(Filter(times, (x: string) => x != time))[t] == multiset(times)[t]
  {
    if times != [] {
      RemoveCounts(times[1..], time);
      assert times == [times[0]] + times[1..];
    }
  }

  /** Removing keeps the remaining times in their order: the edit splits over any cut. */
  lemma RemoveReminderTimeKeepsOrder(current: ReminderSettings, time: string, k: nat)
    requires k <= |current.times|
    ensures RemoveReminderTime(current, time).times
         == RemoveReminderTime(current.(times := current.times[..k]), time).times
          + RemoveReminderTime(current.(times := current.times[k..]), time).times
  {
    assert current.times == current.times[..k] + current.times[k..];
    FilterConcat(current.times[..k], current.times[k..], (t: string) => t != time);
  }

  /** Round trip: on a sorted list without repeats, removing a time just added restores the
      settings. */
  lemma RemoveUndoesAdd(current: ReminderSettings, time: string)
    requires SortedBy(current.times, LexLe) && Distinct(current.times)
    requires time !in current.times
    ensures RemoveReminderTime(AddReminderTime(current, time), time) == current
  {
    SortAppend(current.times, time);
    FilterInsert(current.times, time);
    FilterAll(current.times, (t: string) => t != time);
  }

  /** Sorting a sorted list with one more element inserts that element. */
  lemma {:induction false} SortAppend(s: seq<string>, t: string)
    requires SortedBy(s, LexLe) && Distinct(s) && t !in s
    ensures Sort(s + [t], LexLe) == Insert(t, s, LexLe)
    decreases |s|
  {
    if s == [] {
      assert s + [t] == [t];
    } else {
      var rest := s[1..];
      assert (s + [t])[1..] == rest + [t];
      SortAppend(rest, t);
      InsertSwap(s, t);
    }
  }

  lemma InsertSwap(s: seq<string>, t: string)
    requires s != [] && SortedBy(s, LexLe) && Distinct(s) && t !in s
    ensures Insert(s[0], Insert(t, s[1..], LexLe), LexLe) == Insert(t, s, LexLe)
  {
    var rest := s[1..];
    var x := Insert(t, rest, LexLe);
    if LexLe(t, s[0]) {
      if rest != [] {
        LexLeTransitive(t, s[0], rest[0]);
      }
      assert x == [t] + rest;
      if LexLe(s[0], t) {
        LexLeAntisymmetric(s[0], t);
      }
      assert x[1..] == rest;
    } else {
      LexLeTotal(t, s[0]);
      assert x[0] == t || (rest != [] && x[0] == rest[0]);
    }
  }

  /** Filtering a time out of a list it was inserted into gives the filtered list. */
  lemma {:induction false} FilterInsert(s: seq<string>, t: string)
    ensures Filter(Insert(t, s, LexLe), (x: string) => x != t) == Filter(s, (x: string) => x != t)
    decreases |s|
  {
    var p := (x: string) => x != t;
    var r := Insert(t, s, LexLe);
    if s == [] || LexLe(t, s[0]) {
      assert r == [t] + s;
      FilterCons(t, s, p);
    } else {
      var rest := s[1..];
      FilterInsert(rest, t);
      assert r == [s[0]] + Insert(t, rest, LexLe);
      assert s == [s[0]] + rest;
      FilterCons(s[0], Insert(t, rest, LexLe), p);
      FilterCons(s[0], rest, p);
    }
  }

  // ---------------------------------------------------------------------------------------
  // The notification decision

  /** `currentTime`: hours and minutes, each padded to two digits, separated by a colon. */
  function ClockKey(hours: nat, minutes: nat): string
  {
    TwoDigits(hours) + ":" + TwoDigits(minutes)
  }

  /** The `localStorage` key that records the last day a time was notified. */
  function NotifiedKey(time: string): string
  {
    "lastNotified_" + time
  }

  /** The one notification the checker sends. */
  datatype Notification = Notification(title: string, body: string)

  const Reminder := Notification("Food Diary Reminder", "Don't forget to log what you ate!")

  /** A check at `now` on day `today` notifies: reminders are on, `now` is one of the times, and
      that time was not already notified today. */
  predicate Due(s: ReminderSettings, storage: map<string, string>, now: string, today: string)
    ensures Due(s, storage, now, today) ==> s.enabled && now in s.times
    ensures s.enabled && now in s.times && NotifiedKey(now) !in storage ==> Due(s, storage, now, today)
  {
    s.enabled && now in s.times && (NotifiedKey(now) !in storage || storage[NotifiedKey(now)] != today)
  }

  /** The records and the notifications after one check. */
  function AfterCheck(s: ReminderSettings, storage: map<string, string>, sent: seq<Notification>,
                      now: string, today: string, granted: bool): (r: (map<string, string>, seq<Notification>))
    ensures |sent| <= |r.1| <= |sent| + 1 && r.1[..|sent|] == sent
    ensures r.0.Keys == storage.Keys || r.0.Keys == storage.Keys + {NotifiedKey(now)}
  {
    if Due(s, storage, now, today) then
      (storage[NotifiedKey(now) := today], if granted then sent + [Reminder] else sent)
    else (storage, sent)
  }

  /** One check sends at most one reminder, exactly when the time is due and notifications
      are permitted, and records today under that time's key alone. */
  lemma CheckActsOnce(s: ReminderSettings, storage: map<string, string>, sent: seq<Notification>,
                      now: string, today: string, granted: bool)
    ensures var (storage', sent') := AfterCheck(s, storage, sent, now, today, granted);
      && |sent| <= |sent'| <= |sent| + 1 && sent'[..|sent|] == sent
      && (|sent'| == |sent| + 1 <==> granted && Due(s, storage, now, today))
      && (Due(s, storage, now, today) ==> NotifiedKey(now) in storage' && storage'[NotifiedKey(now)] == today)
      && (!Due(s, storage, now, today) ==> storage' == storage)
      && forall k :: k != NotifiedKey(now) ==> (k in storage' <==> k in storage) && (k in storage ==> storage'[k] == storage[k])
  {
  }

  /** A check right after a check on the same day and minute changes nothing. */
  lemma SecondCheckSilent(s: ReminderSettings, storage: map<string, string>, sent: seq<Notification>,
                          now: string, today: string, granted: bool)
    ensures var (storage', sent') := AfterCheck(s, storage, sent, now, today, granted);
      AfterCheck(s, storage', sent', now, today, granted) == (storage', sent')
  {
  }

  /** Disabled reminders never notify. */
  lemma DisabledSilent(s: ReminderSettings, storage: map<string, string>, sent: seq<Notification>,
                       now: string, today: string, granted: bool)
    requires !s.enabled
    ensures AfterCheck(s, storage, sent, now, today, granted) == (storage, sent)
  {
  }

  /** A time notified on one day is due again on any other day. */
  lemma DueNextDay(s: ReminderSettings, storage: map<string, string>, now: string, today: string, day: string)
    requires Due(s, storage, now, today) && day != today
    ensures Due(s, storage[NotifiedKey(now) := today], now, day)
  {
  }

  /** Two different minutes of a day give two different clock keys, so a time matches at
      most one minute. */
  lemma ClockKeyInjective(h1: nat, m1: nat, h2: nat, m2: nat)
    requires h1 < 100 && m1 < 100 && h2 < 100 && m2 < 100
    requires ClockKey(h1, m1) == ClockKey(h2, m2)
    ensures h1 == h2 && m1 == m2
  {
    KeyParts(TwoDigits(h1), TwoDigits(m1), TwoDigits(h2), TwoDigits(m2));
    TwoDigitsValue(h1);
    TwoDigitsValue(h2);
    TwoDigitsValue(m1);
    TwoDigitsValue(m2);
  }

  lemma KeyParts(a: string, b: string, c: string, e: string)
    requires |a| == 2 && |c| == 2 && a + ":" + b == c + ":" + e
    ensures a == c && b == e
  {
    var k := a + ":" + b;
    assert a == k[..2] && b == k[3..];
    assert c == (c + ":" + e)[..2] && e == (c + ":" + e)[3..];
  }

  // ---------------------------------------------------------------------------------------
  // The store

  class ReminderStore {
    /** The `reminderSettings` store, persisted under `localStorage.reminderSettings`. */
    var settings: ReminderSettings
    /** `reminderInterval !== null`. */
    var running: bool
    /** The `lastNotified_<time>` keys of `localStorage`. */
    var storage: map<string, string>
    /** The notifications shown so far. */
    var sent: seq<Notification>

    /** `loadSettings()`: the stored settings, or the defaults when none are stored or they do
        not parse (`stored == None`). */
    constructor (stored: Option<ReminderSettings>, notified: map<string, string>)
      ensures settings == stored.GetOr(DefaultSettings)
      ensures !running && storage == notified && sent == []
    {
      settings := stored.GetOr(DefaultSettings);
      running := false;
      storage := notified;
      sent := [];
    }

    /** `checkAndSendReminder()` at `hours:minutes` on `today`; `granted` is the notification
        permission. */
    method Check(hours: nat, minutes: nat, today: string, granted: bool)
      modifies this
      ensures settings == old(settings) && running == old(running)
      ensures (storage, sent) == AfterCheck(settings, old(storage), old(sent), ClockKey(hours, minutes), today, granted)
    {
      var currentTime := ClockKey(hours, minutes);
      CheckAt(currentTime, today, granted);
    }

    /** The body of the check once the current time is formatted as `now`. */
    method CheckAt(now: string, today: string, granted: bool)
      modifies this
      ensures settings == old(settings) && running == old(running)
      ensures (storage, sent) == AfterCheck(settings, old(storage), old(sent), now, today, granted)
    {
      if !settings.enabled {
        return;
      }
      var i := 0;
      while i < |settings.times|
        invariant 0 <= i <= |settings.times|
        invariant forall j :: 0 <= j < i ==> settings.times[j] != now
        invariant storage == old(storage) && sent == old(sent)
      {
        var time := settings.times[i];
        if now == time {
          assert now in settings.times;
          var key := NotifiedKey(time);
          var lastNotified := if key in storage then Some(storage[key]) else None;
          if lastNotified != Some(today) {
            if granted {
              sent := sent + [Reminder];
            }
            storage := storage[key := today];
          }
          break;
        }
        i := i + 1;
      }
    }

    /** `startReminderChecker()`: a running checker stays as it is; otherwise it starts and
        checks at once. */
    method Start(hours: nat, minutes: nat, today: string, granted: bool)
      modifies this
      ensures running && settings == old(settings)
      ensures (storage, sent) == if old(running) then (old(storage), old(sent))
        else AfterCheck(settings, old(storage), old(sent), ClockKey(hours, minutes), today, granted)
    {
      if running {
        return;
      }
      running := true;
      Check(hours, minutes, today, granted);
    }

    /** `stopReminderChecker()`. */
    method Stop()
      modifies this
      ensures !running
      ensures settings == old(settings) && storage == old(storage) && sent == old(sent)
    {
      running := false;
    }

    /** One tick of the minute interval. */
    method Tick(hours: nat, minutes: nat, today: string, granted: bool)
      modifies this
      ensures settings == old(settings) && running == old(running)
      ensures (storage, sent) == if running
        then AfterCheck(settings, old(storage), old(sent), ClockKey(hours, minutes), today, granted)
        else (old(storage), old(sent))
    {
      if running {
        Check(hours, minutes, today, granted);
      }
    }

    /** `updateReminderSettings(updates)`: the merged settings are stored and the checker runs
        exactly when they are enabled. The check made on starting reads the settings saved
        before the update. */
    method Update(u: SettingsUpdate, hours: nat, minutes: nat, today: string, granted: bool)
      modifies this
      ensures settings == Merge(old(settings), u)
      ensures running == settings.enabled
      ensures (storage, sent) == if settings.enabled && !old(running)
        then AfterCheck(old(settings), old(storage), old(sent), ClockKey(hours, minutes), today, granted)
        else (old(storage), old(sent))
    {
      var merged := Merge(settings, u);
      if merged.enabled {
        Start(hours, minutes, today, granted);
      } else {
        Stop();
      }
      settings := merged;
    }

    /** `addReminderTime(time)`. */
    method AddTime(time: string)
      modifies this
      ensures settings == AddReminderTime(old(settings), time)
      ensures running == old(running) && storage == old(storage) && sent == old(sent)
    {
      settings := AddReminderTime(settings, time);
    }

    /** `removeReminderTime(time)`. */
    method RemoveTime(time: string)
      modifies this
      ensures settings == RemoveReminderTime(old(settings), time)
      ensures running == old(running) && storage == old(storage) && sent == old(sent)
    {
      settings := RemoveReminderTime(settings, time);
    }
  }
}
