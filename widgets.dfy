/** The helpers of public/components.js that compute or keep state: the
    form checks, pagination, multi-field search, the notification list, the
    carousel's slide arithmetic, the data table's sort toggle, the expiring
    key store and the event bus. Rendering, timers and the DOM are not part
    of this model. */
module Widgets {
  import opened Wrappers
  import opened Strings
  import opened Sorting
  import Validators

  // ---------------------------------------------------------------- Form

  /** `Form.validateEmail`: the same pattern as the server's check. */
  function FormEmail(email: string): (r: bool)
    ensures r <==> Validators.ValidateEmail(email)
  {
    Validators.ValidateEmail(email)
  }

  /** `Form.validatePhone`: 10 to 15 digits once every other character is
      dropped. */
  function FormPhone(phone: string): (r: bool)
    ensures r <==> 10 <= |Digits(phone)| <= 15
    ensures r ==> |phone| >= 10
  {
    10 <= |Digits(phone)| <= 15
  }

  /** `Form.validateName`: a given name of at least 3 characters once
      trimmed. */
  function FormName(name: Option<string>): (r: bool)
    ensures r <==> Truthy(name) && |Trim(name.value)| >= 3
  {
    Truthy(name) && |Trim(name.value)| >= 3
  }

  /** `Form.validateAddress`: a given address of at least 10 characters once
      trimmed. */
  function FormAddress(address: Option<string>): (r: bool)
    ensures r <==> Truthy(address) && |Trim(address.value)| >= 10
  {
    Truthy(address) && |Trim(address.value)| >= 10
  }

  /** The client's phone check and the server's disagree in both
      directions: a plain number of 7 to 9 digits passes the server and fails
      here; a number of 10 to 15 digits behind an opening bracket passes
      here and fails the server. */
  lemma PhoneChecksDisagree(d: string)
    requires forall i :: 0 <= i < |d| ==> IsDigit(d[i])
    ensures 7 <= |d| <= 9 ==> Validators.ValidatePhone(d) && !FormPhone(d)
    ensures 10 <= |d| <= 15 ==> FormPhone("(" + d) && !Validators.ValidatePhone("(" + d)
  {
    DigitsAppend("(", d);
    assert Digits("(") == [];
    assert ("(" + d)[0] == '(';
  }

  // ----------------------------------------------------------- Paginator

  /** The smaller of two integers. */
  function Min(a: int, b: int): int {
    if a <= b then a else b
  }

  /** A position of `Array.prototype.slice`: a negative one counts from the
      end, and both ends are clamped to the array. */
  function SlicePos(i: int, n: nat): (p: nat)
    ensures p <= n
    ensures i >= 0 ==> p == Min(i, n)
    ensures i < 0 ==> p == Min(n + i, n) || (n + i < 0 && p == 0)
  {
    if i < 0 then (if n + i < 0 then 0 else n + i) else if i > n then n else i
  }

  /** `s.slice(start, end)`. */
  function JsSlice<T>(s: seq<T>, start: int, end: int): (r: seq<T>)
    ensures 0 <= start <= end ==> r == s[Min(start, |s|)..Min(end, |s|)]
    ensures end == 0 ==> r == []
  {
    var a := SlicePos(start, |s|);
    var b := SlicePos(end, |s|);
    if a < b then s[a..b] else []
  }

  /** `a * c <= b * c` for `a <= b` and `c >= 0`. */
  lemma MulLe(a: int, b: int, c: int)
    requires a <= b && c >= 0
    ensures a * c <= b * c
  {
    assert b * c - a * c == (b - a) * c;
  }

  /** `Math.ceil(n / per)` for a positive page size. */
  function PageCount(n: nat, per: nat): (c: nat)
    requires per > 0
    ensures c * per >= n
    ensures c > 0 ==> (c - 1) * per < n
    ensures c == 0 <==> n == 0
  {
    var q := (n + per - 1) / per;
    assert n + per - 1 == q * per + (n + per - 1) % per;
    assert (q - 1) * per == q * per - per;
    q
  }

  /** The object `paginate` returns. */
  datatype Page<T> = Page(
    data: seq<T>,
    currentPage: int,
    totalPages: nat,
    totalItems: nat,
    hasNextPage: bool,
    hasPrevPage: bool)

  /** Where page `current` starts and ends. */
  lemma PageEnds(current: int, per: nat)
    ensures (current - 1) * per + per == current * per
    ensures current >= 1 ==> (current - 1) * per >= 0
  {
    if current >= 1 {
      MulLe(0, current - 1, per);
    }
  }

  /** `Paginator.paginate`: the page `page` (1 when not given) of
      `per`-sized pages. */
  function Paginate<T>(items: seq<T>, per: nat, page: Option<int>): (p: Page<T>)
    requires per > 0
    ensures p.currentPage == page.GetOr(1) && p.totalItems == |items|
    ensures p.totalPages * per >= |items| && (p.totalPages > 0 ==> (p.totalPages - 1) * per < |items|)
    ensures p.hasNextPage <==> page.GetOr(1) < p.totalPages
    ensures p.hasPrevPage <==> page.GetOr(1) > 1
  {
    var current := page.GetOr(1);
    var start := (current - 1) * per;
    Page(JsSlice(items, start, start + per), current, PageCount(|items|, per), |items|, current < PageCount(|items|, per), current > 1)
  }

  /** Page `k` holds the items from `(k - 1) * per` up to `k * per`, cut
      at the end; page 0 holds none. */
  lemma PageData<T>(items: seq<T>, per: nat, k: int)
    requires per > 0
    ensures k >= 1 ==> (PageEnds(k, per); Paginate(items, per, Some(k)).data == items[Min((k - 1) * per, |items|)..Min(k * per, |items|)])
    ensures k == 0 ==> Paginate(items, per, Some(k)).data == []
    ensures Paginate(items, per, None) == Paginate(items, per, Some(1))
  {
    PageEnds(k, per);
  }

  /** Each page up to the last holds `per` items, the last between one and
      `per`, and pages past the end hold none. */
  lemma PageSizes<T>(items: seq<T>, per: nat, k: int)
    requires per > 0 && k >= 1
    ensures var p := Paginate(items, per, Some(k));
      (k < p.totalPages ==> |p.data| == per)
      && (k == p.totalPages ==> 1 <= |p.data| <= per)
      && (k > p.totalPages ==> p.data == [])
  {
    var total := PageCount(|items|, per);
    PageData(items, per, k);
    PageEnds(k, per);
    if k < total {
      MulLe(k, total - 1, per);
    } else if k > total {
      MulLe(total, k - 1, per);
    }
  }

  /** The first `k` pages, one after another. */
  function PagesUpTo<T>(items: seq<T>, per: nat, k: nat): seq<T>
    requires per > 0
  {
    if k == 0 then [] else PagesUpTo(items, per, k - 1) + Paginate(items, per, Some(k)).data
  }

  /** The first `k` pages spell the first `k * per` items. */
  lemma {:induction false} PagesUpToPrefix<T>(items: seq<T>, per: nat, k: nat)
    requires per > 0
    ensures PagesUpTo(items, per, k) == items[..Min(k * per, |items|)]
  {
    if k > 0 {
      PagesUpToPrefix(items, per, k - 1);
      PageData(items, per, k);
      PageEnds(k, per);
      var lo, hi := Min((k - 1) * per, |items|), Min(k * per, |items|);
      assert PagesUpTo(items, per, k - 1) == items[..lo];
      assert Paginate(items, per, Some(k)).data == items[lo..hi];
      PrefixJoin(items, lo, hi);
    }
  }

  /** A prefix followed by the next slice is the longer prefix. */
  lemma PrefixJoin<T>(s: seq<T>, lo: nat, hi: nat)
    requires lo <= hi <= |s|
    ensures s[..lo] + s[lo..hi] == s[..hi]
  {
  }

  /** Reading every page in turn gives back all items in order, none lost
      and none repeated. */
  lemma PagesPartition<T>(items: seq<T>, per: nat)
    requires per > 0
    ensures PagesUpTo(items, per, Paginate(items, per, None).totalPages) == items
  {
    var total := PageCount(|items|, per);
    PagesUpToPrefix(items, per, total);
    PageData(items, per, 1);
    assert items[..|items|] == items;
  }

  // -------------------------------------------------------- SearchFilter

  /** A field value of an item: text, a number, or a flag. */
  datatype Value = Text(s: string) | Number(n: int) | Flag(b: bool)

  /** JavaScript truthiness of a field value. */
  predicate ValueTruthy(v: Value) {
    match v
    case Text(s) => s != []
    case Number(n) => n != 0
    case Flag(b) => b
  }

  /** `value.toString()`. */
  function ValueText(v: Value): string {
    match v
    case Text(s) => s
    case Number(n) => IntToString(n)
    case Flag(b) => if b then "true" else "false"
  }

  /** An item: its fields by name. */
  type Record = map<string, Value>

  /** The item has the field, its value is truthy, and the lower-cased
      value contains `term`. */
  predicate FieldHit(item: Record, field: string, term: string) {
    field in item && ValueTruthy(item[field]) && Contains(ToLower(ValueText(item[field])), term)
  }

  /** `fields.some(...)` for one item. */
  function Hits(fields: seq<string>, term: string): Record -> bool {
    (item: Record) => exists k :: 0 <= k < |fields| && FieldHit(item, fields[k], term)
  }

  /** `SearchFilter.filterByMultipleFields`. */
  function FilterByMultipleFields(items: seq<Record>, searchTerm: Option<string>, fields: seq<string>): (r: seq<Record>)
    ensures !Truthy(searchTerm) ==> r == items
    ensures Truthy(searchTerm) ==> r == Keep(items, Hits(fields, ToLower(searchTerm.value)))
  {
    if !Truthy(searchTerm) then items else Keep(items, Hits(fields, ToLower(searchTerm.value)))
  }

  /** Lower-casing twice is lower-casing once. */
  lemma ToLowerIdempotent(s: string)
    ensures ToLower(ToLower(s)) == ToLower(s)
  {
    forall i | 0 <= i < |s|
      ensures LowerChar(LowerChar(s[i])) == LowerChar(s[i])
    {
    }
  }

  /** With a term, what is kept is exactly the items where some listed field
      contains the lower-cased term, in their order; the term's own case does
      not matter, and with no fields nothing is kept. */
  lemma FilterMeaning(items: seq<Record>, term: string, fields: seq<string>, x: Record)
    requires term != []
    ensures var r := FilterByMultipleFields(items, Some(term), fields);
      (x in r <==> x in items && exists k :: 0 <= k < |fields| && FieldHit(x, fields[k], ToLower(term)))
      && FilterByMultipleFields(items, Some(ToLower(term)), fields) == r
      && (fields == [] ==> r == [])
  {
    var p := Hits(fields, ToLower(term));
    KeepIn(items, p, x);
    ToLowerIdempotent(term);
    if fields == [] {
      KeepNone(items, p);
    }
  }

  /** A filter that keeps nothing gives nothing. */
  lemma {:induction false} KeepNone<T>(s: seq<T>, p: T -> bool)
    requires forall x :: !p(x)
    ensures Keep(s, p) == []
  {
    if s != [] {
      KeepNone(s[1..], p);
    }
  }

  // -------------------------------------------------- NotificationCenter

  /** One notification; its actions are not part of this model. */
  datatype Notification = Notification(
    id: string,
    title: string,
    message: string,
    kind: string,
    duration: int,
    createdAt: nat)

  /** The options of `add`; each one not given takes its default. */
  datatype NotificationOptions = NotificationOptions(
    id: Option<string>,
    title: Option<string>,
    message: Option<string>,
    kind: Option<string>,
    duration: Option<int>)

  /** The notification `add` builds at time `now`. */
  function NewNotification(options: NotificationOptions, now: nat): (n: Notification)
    ensures n.id == options.id.GetOr("notif-" + NatToString(now))
    ensures n.title == options.title.GetOr("Notification") && n.message == options.message.GetOr([])
    ensures n.kind == options.kind.GetOr("info") && n.duration == options.duration.GetOr(5000)
    ensures n.createdAt == now
  {
    Notification(options.id.GetOr("notif-" + NatToString(now)), options.title.GetOr("Notification"),
                 options.message.GetOr([]), options.kind.GetOr("info"), options.duration.GetOr(5000), now)
  }

  /** The list without any notification carrying `id`. */
  function Dismissed(ns: seq<Notification>, id: string): (r: seq<Notification>)
    ensures forall i :: 0 <= i < |r| ==> r[i].id != id && r[i] in ns
    ensures forall i :: 0 <= i < |ns| && ns[i].id != id ==> ns[i] in r
  {
    Keep(ns, (n: Notification) => n.id != id)
  }

  /** Dismissing a notification whose id was new gives back the list it was
      added to. */
  lemma DismissUndoesAdd(ns: seq<Notification>, n: Notification)
    requires forall i :: 0 <= i < |ns| ==> ns[i].id != n.id
    ensures Dismissed(ns + [n], n.id) == ns
  {
    var p := (m: Notification) => m.id != n.id;
    KeepAppend(ns, [n], p);
    assert Keep([n], p) == [];
  }

  /** The notification list. The timed removal after `duration` is not part
      of this model; `remove` models it when it fires. */
  class NotificationCenter {
    var notifications: seq<Notification>

    constructor()
      ensures notifications == []
    {
      notifications := [];
    }

    /** `add`: appends the new notification and returns its id. */
    method Add(options: NotificationOptions, now: nat) returns (id: string)
      modifies this
      ensures notifications == old(notifications) + [NewNotification(options, now)]
      ensures id == NewNotification(options, now).id
    {
      var n := NewNotification(options, now);
      notifications := notifications + [n];
      id := n.id;
    }

    /** `remove`: drops every notification with that id. */
    method Remove(id: string)
      modifies this
      ensures notifications == Dismissed(old(notifications), id)
    {
      notifications := Dismissed(notifications, id);
    }

    /** `getAll`. */
    method GetAll() returns (all: seq<Notification>)
      ensures all == notifications
    {
      all := notifications;
    }

    /** `clear`. */
    method Clear()
      modifies this
      ensures notifications == []
    {
      notifications := [];
    }
  }

  // ------------------------------------------------------------ Carousel

  /** JavaScript's `%`: the remainder takes the sign of the dividend. */
  function JsRem(a: int, n: int): (r: int)
    requires n > 0
    ensures a >= 0 ==> r == a % n
    ensures a < 0 ==> -n < r <= 0
  {
    if a >= 0 then a % n else -((-a) % n)
  }

  /** `next`: the slide after `current` among `n`. */
  function NextSlide(current: int, n: int): (next: int)
    requires n > 0
    ensures -1 <= current < n ==> 0 <= next < n
    ensures 0 <= current < n - 1 ==> next == current + 1
    ensures current == n - 1 ==> next == 0
  {
    JsRem(current + 1, n)
  }

  /** `prev`: the slide before `current` among `n`. */
  function PrevSlide(current: int, n: int): (prev: int)
    requires n > 0
    ensures 0 <= current < n ==> 0 <= prev < n
    ensures 0 < current < n ==> prev == current - 1
    ensures current == 0 ==> prev == n - 1
  {
    JsRem(current - 1 + n, n)
  }

  /** The remainder of a number below `2 * n`. */
  lemma RemBelowTwice(x: int, n: int)
    requires 0 <= x < 2 * n
    ensures x < n ==> JsRem(x, n) == x
    ensures x >= n ==> JsRem(x, n) == x - n
  {
    if x >= n {
      assert x == 1 * n + (x - n);
    }
  }

  /** From a shown slide, next and previous stay among the slides, wrap
      around at the ends, and undo each other. With no slide shown
      (`indexOf` gives -1), next goes to the first slide. */
  lemma SlidesWrap(current: int, n: int)
    requires n > 0
    ensures -1 <= current < n ==> 0 <= NextSlide(current, n) < n
    ensures 0 <= current < n ==> 0 <= PrevSlide(current, n) < n
    ensures 0 <= current < n ==> PrevSlide(NextSlide(current, n), n) == current
    ensures 0 <= current < n ==> NextSlide(PrevSlide(current, n), n) == current
    ensures NextSlide(n - 1, n) == 0 && PrevSlide(0, n) == n - 1 && NextSlide(-1, n) == 0
  {
    RemBelowTwice(n, n);
    RemBelowTwice(n - 1, n);
    RemBelowTwice(0, n);
    if -1 <= current < n {
      RemBelowTwice(current + 1, n);
    }
    if 0 <= current < n {
      RemBelowTwice(current - 1 + n, n);
      var next := NextSlide(current, n);
      var prev := PrevSlide(current, n);
      RemBelowTwice(next - 1 + n, n);
      RemBelowTwice(prev + 1, n);
    }
  }

  // ----------------------------------------------------------- DataTable

  /** `sortColumn` and `sortDirection`. */
  datatype SortState = SortState(column: Option<string>, ascending: bool)

  /** `sortTable(columnKey)`: the same column flips the direction; another
      one becomes the column, ascending. */
  function Clicked(s: SortState, key: string): (t: SortState)
    ensures t.column == Some(key)
    ensures s.column == Some(key) ==> t.ascending == !s.ascending
    ensures s.column != Some(key) ==> t.ascending
  {
    if s.column == Some(key) then SortState(s.column, !s.ascending) else SortState(Some(key), true)
  }

  /** Clicking a column twice sorts it descending when it was new, and
      restores the direction when it was already the column. */
  lemma ClickTwice(s: SortState, key: string)
    ensures Clicked(Clicked(s, key), key).column == Some(key)
    ensures s.column == Some(key) ==> Clicked(Clicked(s, key), key) == s
    ensures s.column != Some(key) ==> !Clicked(Clicked(s, key), key).ascending
  {
  }

  /** The state a table's sort function closes over. */
  class TableSort {
    var column: Option<string>
    var ascending: bool

    constructor()
      ensures column == None && ascending
    {
      column := None;
      ascending := true;
    }

    /** `window.sortTable`, up to the new state. */
    method SortTable(key: string)
      modifies this
      ensures SortState(column, ascending) == Clicked(SortState(old(column), old(ascending)), key)
    {
      if column == Some(key) {
        ascending := !ascending;
      } else {
        column := Some(key);
        ascending := true;
      }
    }
  }

  // ------------------------------------------------------ StorageManager

  /** The record kept under `app_<key>`. */
  datatype Stored = Stored(value: string, timestamp: nat, expiresAt: Option<int>)

  /** `expiresAt`: `now` plus the minutes when they are given and not 0. */
  function ExpiryFor(minutes: Option<int>, now: nat): (e: Option<int>)
    ensures minutes.None? || minutes == Some(0) <==> e.None?
    ensures e.Some? ==> e.value == now + minutes.value * 60 * 1000
  {
    if minutes.Some? && minutes.value != 0 then Some(now + minutes.value * 60 * 1000) else None
  }

  /** A record is stale once a truthy `expiresAt` lies before `now`. */
  predicate Expired(d: Stored, now: int) {
    d.expiresAt.Some? && d.expiresAt.value != 0 && now > d.expiresAt.value
  }

  /** What `get(key)` answers at `now`. */
  function Lookup(entries: map<string, Stored>, key: string, now: int): (v: Option<string>)
    ensures v.Some? <==> key in entries && !Expired(entries[key], now)
    ensures v.Some? ==> v.value == entries[key].value
  {
    if key in entries && !Expired(entries[key], now) then Some(entries[key].value) else None
  }

  /** The records that are not stale at `now`. */
  function Live(entries: map<string, Stored>, now: int): (m: map<string, Stored>)
    ensures m.Keys <= entries.Keys
    ensures forall k :: k in m ==> m[k] == entries[k] && !Expired(entries[k], now)
    ensures forall k :: k in entries && !Expired(entries[k], now) ==> k in m
  {
    map k | k in entries && !Expired(entries[k], now) :: entries[k]
  }

  /** After `set`, `get` answers the value for ever when no minutes (or 0)
      were given; with a positive number of minutes it answers the value up
      to the expiry and nothing after it; other keys answer as before. */
  lemma LookupAfterSet(entries: map<string, Stored>, key: string, value: string, minutes: Option<int>, setAt: nat, now: int, other: string)
    requires other != key
    ensures var e := entries[key := Stored(value, setAt, ExpiryFor(minutes, setAt))];
      (minutes.None? || minutes == Some(0) ==> Lookup(e, key, now) == Some(value))
      && (minutes.Some? && minutes.value > 0 && now <= setAt + minutes.value * 60000 ==> Lookup(e, key, now) == Some(value))
      && (minutes.Some? && minutes.value > 0 && now > setAt + minutes.value * 60000 ==> Lookup(e, key, now).None?)
      && Lookup(e, other, now) == Lookup(entries, other, now)
  {
  }

  /** The records of `entries` during `getAll`: every one not yet visited,
      and the live ones among those visited. */
  ghost function Unvisited(entries: map<string, Stored>, keys: set<string>, now: int): map<string, Stored> {
    map k | k in entries && (k in keys || !Expired(entries[k], now)) :: entries[k]
  }

  /** Visiting `k` drops it exactly when it is stale. */
  lemma UnvisitedStep(entries: map<string, Stored>, keys: set<string>, k: string, now: int)
    requires k in keys && keys <= entries.Keys
    ensures k in Unvisited(entries, keys, now) && Unvisited(entries, keys, now)[k] == entries[k]
    ensures Expired(entries[k], now) ==> Unvisited(entries, keys - {k}, now) == Unvisited(entries, keys, now) - {k}
    ensures !Expired(entries[k], now) ==> Unvisited(entries, keys - {k}, now) == Unvisited(entries, keys, now)
  {
    var a, b := Unvisited(entries, keys, now), Unvisited(entries, keys - {k}, now);
    if Expired(entries[k], now) {
      assert b.Keys == a.Keys - {k};
    } else {
      assert b.Keys == a.Keys;
    }
  }

  /** The `app_` keys of local storage. Other keys are outside this model;
      `clear` leaves them alone in the source. */
  class StorageManager {
    var entries: map<string, Stored>

    constructor()
      ensures entries == map[]
    {
      entries := map[];
    }

    /** `set`. */
    method Set(key: string, value: string, minutes: Option<int>, now: nat)
      modifies this
      ensures entries == old(entries)[key := Stored(value, now, ExpiryFor(minutes, now))]
    {
      entries := entries[key := Stored(value, now, ExpiryFor(minutes, now))];
    }

    /** `get` at `now`: a stale record is removed and answers nothing. */
    method Get(key: string, now: int) returns (v: Option<string>)
      modifies this
      ensures v == Lookup(old(entries), key, now)
      ensures key in old(entries) && Expired(old(entries)[key], now) ==> entries == old(entries) - {key}
      ensures !(key in old(entries) && Expired(old(entries)[key], now)) ==> entries == old(entries)
    {
      if key !in entries {
        return None;
      }
      var data := entries[key];
      if Expired(data, now) {
        Remove(key);
        return None;
      }
      v := Some(data.value);
    }

    /** `remove`. */
    method Remove(key: string)
      modifies this
      ensures entries == old(entries) - {key}
    {
      entries := entries - {key};
    }

    /** `clear`. */
    method Clear()
      modifies this
      ensures entries == map[]
    {
      entries := map[];
    }

    /** `getAll` at `now`: every key with what `get` answers, which also
      drops every stale record. */
    method GetAll(now: int) returns (items: map<string, Option<string>>)
      modifies this
      ensures items.Keys == old(entries).Keys
      ensures forall k :: k in items ==> items[k] == Lookup(old(entries), k, now)
      ensures entries == Live(old(entries), now)
    {
      ghost var start := entries;
      var keys := entries.Keys;
      items := map[];
      assert entries == Unvisited(start, keys, now);
      while keys != {}
        invariant keys <= start.Keys
        invariant items.Keys == start.Keys - keys
        invariant forall k :: k in items ==> items[k] == Lookup(start, k, now)
        invariant entries == Unvisited(start, keys, now)
        decreases |keys|
      {
        var k :| k in keys;
        UnvisitedStep(start, keys, k, now);
        var v := Get(k, now);
        items := items[k := v];
        keys := keys - {k};
      }
      assert Unvisited(start, {}, now) == Live(start, now);
    }
  }

  // ------------------------------------------------------------ EventBus

  /** A callback, by identity. */
  type Callback = nat

  /** The callbacks of `event`, in registration order. */
  function Handlers(events: map<string, seq<Callback>>, event: string): (cbs: seq<Callback>)
    ensures event !in events ==> cbs == []
  {
    if event in events then events[event] else []
  }

  /** `on`: the callback joins the end of the event's list. */
  function Registered(events: map<string, seq<Callback>>, event: string, cb: Callback): (m: map<string, seq<Callback>>)
    ensures Handlers(m, event) == Handlers(events, event) + [cb]
    ensures forall e :: e != event ==> Handlers(m, e) == Handlers(events, e)
  {
    events[event := Handlers(events, event) + [cb]]
  }

  /** `cb => cb !== callback`. */
  function Other(cb: Callback): Callback -> bool {
    (x: Callback) => x != cb
  }

  /** `off`: every identical callback leaves the event's list, if it has
      one. */
  function Unregistered(events: map<string, seq<Callback>>, event: string, cb: Callback): (m: map<string, seq<Callback>>)
    ensures m.Keys == events.Keys
    ensures cb !in Handlers(m, event)
    ensures forall x :: x != cb && x in Handlers(events, event) ==> x in Handlers(m, event)
    ensures forall x :: x in Handlers(m, event) ==> x in Handlers(events, event)
    ensures forall e :: e != event ==> Handlers(m, e) == Handlers(events, e)
  {
    if event in events then
      var kept := Keep(events[event], Other(cb));
      assert forall i :: 0 <= i < |events[event]| && events[event][i] != cb ==> events[event][i] in kept;
      events[event := kept]
    else events
  }

  /** Taking off a callback that was new undoes putting it on. */
  lemma OffUndoesOn(events: map<string, seq<Callback>>, event: string, cb: Callback)
    requires event in events && cb !in events[event]
    ensures Unregistered(Registered(events, event, cb), event, cb) == events
  {
    var before := events[event];
    KeptWithout(before, cb);
    var on := Registered(events, event, cb);
    assert on[event] == before + [cb];
    assert Unregistered(on, event, cb) == on[event := before];
    assert on[event := before] == events;
  }

  /** Filtering out a callback the list lacks, appended once at the end,
      gives the list back. */
  lemma KeptWithout(before: seq<Callback>, cb: Callback)
    requires cb !in before
    ensures Keep(before + [cb], Other(cb)) == before
  {
    var p := Other(cb);
    KeepAppend(before, [cb], p);
    assert Keep([cb], p) == [];
    assert forall i :: 0 <= i < |before| ==> p(before[i]);
    assert before + [] == before;
  }

  /** Callbacks are run in the order they were put on. */
  lemma EmitInOrder(events: map<string, seq<Callback>>, event: string, first: Callback, second: Callback)
    ensures Handlers(Registered(Registered(events, event, first), event, second), event)
         == Handlers(events, event) + [first, second]
  {
    assert Handlers(events, event) + [first] + [second] == Handlers(events, event) + [first, second];
  }

  /** The event registry. Callbacks are identities; what they do when run is
      not part of this model. */
  class EventBus {
    var events: map<string, seq<Callback>>

    constructor()
      ensures events == map[]
    {
      events := map[];
    }

    /** `on`. */
    method On(event: string, callback: Callback)
      modifies this
      ensures events == Registered(old(events), event, callback)
    {
      if event !in events {
        events := events[event := []];
      }
      events := events[event := events[event] + [callback]];
    }

    /** `off`. */
    method Off(event: string, callback: Callback)
      modifies this
      ensures events == Unregistered(old(events), event, callback)
    {
      if event in events {
        events := events[event := Keep(events[event], Other(callback))];
      }
    }

    /** `emit`: the callbacks run, in this order. */
    method Emit(event: string) returns (run: seq<Callback>)
      ensures run == Handlers(events, event)
    {
      run := [];
      if event in events {
        var cbs := events[event];
        var i := 0;
        while i < |cbs|
          invariant 0 <= i <= |cbs|
          invariant run == cbs[..i]
        {
          run := run + [cbs[i]];
          i := i + 1;
        }
      }
    }

    /** `clear(event)` drops that event; `clear()` drops all. */
    method Clear(event: Option<string>)
      modifies this
      ensures Truthy(event) ==> events == old(events) - {event.value}
      ensures !Truthy(event) ==> events == map[]
    {
      if Truthy(event) {
        events := events - {event.value};
      } else {
        events := map[];
      }
    }
  }
}
