/** The console ring buffer of a page (chrome-extension/src/console-content.js) and
    reading it page by page. */
module ConsoleBuffer {
  import opened Text

  const DEFAULT_BUFFER_SIZE := 1_000
  const MAX_BUFFER_SIZE := 5_000
  const MAX_BUFFER_CHARS := 2_000_000
  const MAX_ENTRY_CHARS := 32_000
  const MAX_SHORT_STACK := 2_000
  const MAX_LIMIT := 200

  datatype Level = Debug | Log | Info | Warn | Severe

  datatype Kind = Console | Exception | UnhandledRejection | ResourceError

  /** A normalized entry before it is stored: its arguments as text, its stack, and the
      rest of it as `details`. `chars` is the length of its JSON, and `shortChars` that of
      its shortened form. */
  datatype Draft = Draft(
    timestamp: int, level: Level, kind: Kind, args: seq<string>, stack: Option<string>, details: string,
    chars: nat, shortChars: nat)

  datatype Entry = Entry(
    cursor: nat, timestamp: int, level: Level, kind: Kind, args: seq<string>, stack: Option<string>,
    details: string, truncated: bool, chars: nat)

  const OMITTED_ARGS := ["[Console arguments exceeded the per-entry limit]"]

  /** An entry that is too long loses its arguments and the end of its stack. */
  function Stored(d: Draft, cursor: nat): Entry {
    if d.chars <= MAX_ENTRY_CHARS
      then Entry(cursor, d.timestamp, d.level, d.kind, d.args, d.stack, d.details, false, d.chars)
      else Entry(cursor, d.timestamp, d.level, d.kind, OMITTED_ARGS,
                 Some(Cut(OrElse(d.stack, ""), MAX_SHORT_STACK)), d.details, true, d.shortChars)
  }

  function Cut(text: string, n: nat): string {
    if |text| <= n then text else text[..n]
  }

  function OrElse<T>(o: Option<T>, default: T): T {
    if o.Some? then o.value else default
  }

  // ---------------------------------------------------------------------
  // Capture
  // ---------------------------------------------------------------------

  datatype State = State(
    active: bool,
    captureConsole: bool,
    captureErrors: bool,
    bufferSize: int,
    entries: seq<Entry>,
    dropped: nat,
    nextCursor: nat)

  const NEW_STATE := State(false, true, true, DEFAULT_BUFFER_SIZE, [], 0, 1)

  function TotalChars(entries: seq<Entry>): nat {
    if entries == [] then 0 else entries[0].chars + TotalChars(entries[1..])
  }

  predicate FitsBuffer(entries: seq<Entry>, bufferSize: int) {
    |entries| <= bufferSize && TotalChars(entries) <= MAX_BUFFER_CHARS
  }

  /** The longest run of the newest entries that fits. */
  function Bounded(entries: seq<Entry>, bufferSize: int): (kept: seq<Entry>)
    requires 1 <= bufferSize
    ensures |kept| <= |entries|
  {
    if FitsBuffer(entries, bufferSize) then entries else Bounded(entries[1..], bufferSize)
  }

  lemma {:induction false} BoundedIsSuffix(entries: seq<Entry>, bufferSize: int)
    requires 1 <= bufferSize
    ensures var kept := Bounded(entries, bufferSize);
      FitsBuffer(kept, bufferSize) && kept == entries[|entries| - |kept|..]
  {
    if !FitsBuffer(entries, bufferSize) {
      BoundedIsSuffix(entries[1..], bufferSize);
      var kept := Bounded(entries, bufferSize);
      assert entries[1..][|entries| - 1 - |kept|..] == entries[|entries| - |kept|..];
    }
  }

  lemma ShiftTotals(entries: seq<Entry>)
    requires entries != []
    ensures TotalChars(entries) == entries[0].chars + TotalChars(entries[1..])
  {
  }

  lemma {:induction false} TotalCharsAppend(entries: seq<Entry>, e: Entry)
    ensures TotalChars(entries + [e]) == TotalChars(entries) + e.chars
  {
    if entries != [] {
      TotalCharsAppend(entries[1..], e);
      assert (entries + [e])[1..] == entries[1..] + [e];
    }
  }

  /** No more is evicted than has to be. */
  lemma {:induction false} BoundedIsLongest(entries: seq<Entry>, bufferSize: int, k: nat)
    requires 1 <= bufferSize && k <= |entries| && FitsBuffer(entries[k..], bufferSize)
    ensures |entries| - k <= |Bounded(entries, bufferSize)|
  {
    assert entries[0..] == entries;
    if !FitsBuffer(entries, bufferSize) {
      assert entries[1..][k - 1..] == entries[k..];
      BoundedIsLongest(entries[1..], bufferSize, k - 1);
    }
  }

  datatype Action =
    | Start(bufferSize: Option<int>, captureConsole: Option<bool>, captureErrors: Option<bool>)
    | Stop
    | Clear
    | Arrive(draft: Draft)

  predicate Startable(a: Action)
    requires a.Start?
  {
    && 1 <= OrElse(a.bufferSize, DEFAULT_BUFFER_SIZE) <= MAX_BUFFER_SIZE
    && (OrElse(a.captureConsole, true) || OrElse(a.captureErrors, true))
  }

  predicate Accepts(s: State, d: Draft) {
    s.active && (if d.kind.Console? then s.captureConsole else s.captureErrors)
  }

  function WithBounds(s: State): State
    requires 1 <= s.bufferSize
  {
    var kept := Bounded(s.entries, s.bufferSize);
    s.(entries := kept, dropped := s.dropped + |s.entries| - |kept|)
  }

  function Appended(s: State, e: Entry): State
    requires 1 <= s.bufferSize
  {
    WithBounds(s.(entries := s.entries + [e], nextCursor := s.nextCursor + 1))
  }

  function Step(s: State, a: Action): State
    requires 1 <= s.bufferSize
  {
    match a
    case Start(size, console, errors) =>
      if !Startable(a) then s
      else WithBounds(s.(bufferSize := OrElse(size, DEFAULT_BUFFER_SIZE), active := true,
                         captureConsole := OrElse(console, true), captureErrors := OrElse(errors, true)))
    case Stop => s.(active := false)
    case Clear => s.(entries := [], dropped := 0)
    case Arrive(d) => if Accepts(s, d) then Appended(s, Stored(d, s.nextCursor)) else s
  }

  // ---------------------------------------------------------------------
  // Reading
  // ---------------------------------------------------------------------

  /** Filters of a read; no filter at all is `None`. */
  datatype Query = Query(levels: Option<set<Level>>, kinds: Option<set<Kind>>, since: int)

  predicate Matches(e: Entry, q: Query) {
    && (q.levels.Some? ==> e.level in q.levels.value)
    && (q.kinds.Some? ==> e.kind in q.kinds.value)
    && q.since <= e.timestamp
  }

  function Matching(entries: seq<Entry>, q: Query): seq<Entry> {
    if entries == [] then []
    else
      var rest := Matching(entries[..|entries| - 1], q);
      var last := entries[|entries| - 1];
      if Matches(last, q) then rest + [last] else rest
  }

  /** The cursor of the last entry looked at. */
  function LastScanned(rest: seq<Entry>, n: nat, cursor: nat): nat
    requires n <= |rest|
  {
    if n == 0 then cursor else rest[n - 1].cursor
  }

  datatype Page = Page(entries: seq<Entry>, nextCursor: nat, hasMore: bool, cursorExpired: bool)

  /** The retained entries after a cursor. */
  function Since(entries: seq<Entry>, cursor: nat): seq<Entry> {
    if entries != [] && entries[0].cursor <= cursor then Since(entries[1..], cursor) else entries
  }

  /** How many of `entries` a read looks at: up to the `limit`-th match. */
  function Scanned(entries: seq<Entry>, q: Query, limit: nat): (n: nat)
    ensures n <= |entries|
  {
    if entries == [] || limit == 0 then 0
    else 1 + Scanned(entries[1..], q, if Matches(entries[0], q) then limit - 1 else limit)
  }

  function OldestCursor(s: State): nat {
    if s.entries == [] then s.nextCursor else s.entries[0].cursor
  }

  function ReadPage(s: State, q: Query, cursor: nat, limit: nat): Page {
    var rest := Since(s.entries, cursor);
    var n := Scanned(rest, q, limit);
    Page(Matching(rest[..n], q), LastScanned(rest, n, cursor), n < |rest|,
         0 < cursor < OldestCursor(s) - 1)
  }

  // ---------------------------------------------------------------------
  // The content script's state object
  // ---------------------------------------------------------------------

  predicate Ordered(entries: seq<Entry>, nextCursor: nat) {
    && |entries| < nextCursor
    && forall i :: 0 <= i < |entries| ==> entries[i].cursor == nextCursor - |entries| + i
  }

  lemma AppendKeepsOrder(entries: seq<Entry>, e: Entry)
    requires Ordered(entries, e.cursor)
    ensures Ordered(entries + [e], e.cursor + 1)
  {
  }

  lemma BoundsKeepOrder(entries: seq<Entry>, nextCursor: nat, bufferSize: int)
    requires Ordered(entries, nextCursor) && 1 <= bufferSize
    ensures Ordered(Bounded(entries, bufferSize), nextCursor)
  {
    BoundedIsSuffix(entries, bufferSize);
  }

  lemma StepKeepsOrder(s: State, a: Action)
    requires Ordered(s.entries, s.nextCursor) && 1 <= s.bufferSize
    ensures Ordered(Step(s, a).entries, Step(s, a).nextCursor)
  {
    match a
    case Start(size, _, _) =>
      if Startable(a) { BoundsKeepOrder(s.entries, s.nextCursor, OrElse(size, DEFAULT_BUFFER_SIZE)); }
    case Arrive(d) =>
      var e := Stored(d, s.nextCursor);
      AppendKeepsOrder(s.entries, e);
      BoundsKeepOrder(s.entries + [e], s.nextCursor + 1, s.bufferSize);
    case _ =>
  }

  class ConsoleCapture {
    var active: bool
    var captureConsole: bool
    var captureErrors: bool
    var bufferSize: int
    var entries: seq<Entry>
    var bufferedChars: int
    var dropped: nat
    var nextCursor: nat

    function View(): State
      reads this
    {
      State(active, captureConsole, captureErrors, bufferSize, entries, dropped, nextCursor)
    }

    ghost predicate Counted()
      reads this
    {
      1 <= bufferSize <= MAX_BUFFER_SIZE && bufferedChars == TotalChars(entries)
    }

    ghost predicate Valid()
      reads this
    {
      Counted() && Ordered(entries, nextCursor)
    }

    constructor ()
      ensures Valid() && View() == NEW_STATE
    {
      active, captureConsole, captureErrors, bufferSize := false, true, true, DEFAULT_BUFFER_SIZE;
      entries, bufferedChars, dropped, nextCursor := [], 0, 0, 1;
    }

    /** Shifts entries out; it never meets an empty buffer that is too full. */
    method EnforceBufferBounds()
      requires Counted()
      modifies this`entries, this`bufferedChars, this`dropped
      ensures Counted() && View() == WithBounds(old(View()))
    {
      while |entries| > bufferSize || bufferedChars > MAX_BUFFER_CHARS
        invariant Counted() && Bounded(entries, bufferSize) == Bounded(old(entries), bufferSize)
        invariant dropped + |entries| == old(dropped) + |old(entries)|
        decreases |entries|
      {
        ShiftTotals(entries);
        bufferedChars := bufferedChars - entries[0].chars;
        entries := entries[1..];
        dropped := dropped + 1;
      }
    }

    method Append(d: Draft)
      requires Counted()
      modifies this
      ensures Counted() && View() == Appended(old(View()), Stored(d, old(nextCursor)))
    {
      var e := Entry(nextCursor, d.timestamp, d.level, d.kind, d.args, d.stack, d.details, false, d.chars);
      nextCursor := nextCursor + 1;
      if d.chars > MAX_ENTRY_CHARS {
        var stack := if e.stack.Some? then e.stack.value else "";
        e := e.(args := OMITTED_ARGS, stack := Some(Cut(stack, MAX_SHORT_STACK)), truncated := true,
                chars := d.shortChars);
      }
      TotalCharsAppend(entries, e);
      entries := entries + [e];
      bufferedChars := bufferedChars + e.chars;
      EnforceBufferBounds();
    }

    method Perform(a: Action)
      requires Valid()
      modifies this
      ensures Valid() && View() == Step(old(View()), a)
    {
      StepKeepsOrder(View(), a);
      match a
      case Start(size, console, errors) =>
        if Startable(a) {
          bufferSize := OrElse(size, DEFAULT_BUFFER_SIZE);
          captureConsole := OrElse(console, true);
          captureErrors := OrElse(errors, true);
          active := true;
          EnforceBufferBounds();
        }
      case Stop =>
        active := false;
      case Clear =>
        entries, bufferedChars, dropped := [], 0, 0;
      case Arrive(d) =>
        if Accepts(View(), d) { Append(d); }
    }

    method Read(q: Query, cursor: nat, limit: nat) returns (page: Page)
      requires Valid() && 1 <= limit <= MAX_LIMIT
      ensures page == ReadPage(View(), q, cursor, limit)
    {
      var oldest := if entries == [] then nextCursor else entries[0].cursor;
      SinceIsSuffix(entries, nextCursor, cursor);
      hide Since, Scanned, Matching, AnyLater, ReadPage;
      ghost var skipped := |entries| - |Since(entries, cursor)|;
      var found, scanned := Scan(entries, q, cursor, limit, skipped);
      page := Page(found, scanned, AnyLater(entries, scanned), 0 < cursor < oldest - 1);
      PageIsRead(View(), q, cursor, limit, skipped, skipped + Scanned(entries[skipped..], q, limit), page);
    }
  }

  lemma PageIsRead(s: State, q: Query, cursor: nat, limit: nat, skipped: nat, end: nat, page: Page)
    requires Ordered(s.entries, s.nextCursor) && skipped == |s.entries| - |Since(s.entries, cursor)|
    requires end == skipped + Scanned(s.entries[skipped..], q, limit)
    requires page.entries == Matching(s.entries[skipped..end], q)
    requires page.nextCursor == if end == skipped then cursor else s.entries[end - 1].cursor
    requires page.hasMore == AnyLater(s.entries, page.nextCursor)
    requires page.cursorExpired == (0 < cursor < OldestCursor(s) - 1)
    ensures page == ReadPage(s, q, cursor, limit)
  {
    RestOfPage(s, cursor, skipped, end);
    hide Since, Scanned, Matching, AnyLater, Ordered, OldestCursor, LastScanned;
    var n := end - skipped;
    assert page.nextCursor == LastScanned(s.entries[skipped..], n, cursor);
    MoreOfPage(s, cursor, skipped, n);
  }

  lemma RestOfPage(s: State, cursor: nat, skipped: nat, end: nat)
    requires Ordered(s.entries, s.nextCursor) && skipped == |s.entries| - |Since(s.entries, cursor)|
    requires skipped <= end <= |s.entries|
    ensures var rest := s.entries[skipped..];
      && Since(s.entries, cursor) == rest && s.entries[skipped..end] == rest[..end - skipped]
      && (if end == skipped then cursor else s.entries[end - 1].cursor) == LastScanned(rest, end - skipped, cursor)
  {
    SinceIsSuffix(s.entries, s.nextCursor, cursor);
  }

  lemma MoreOfPage(s: State, cursor: nat, skipped: nat, n: nat)
    requires Ordered(s.entries, s.nextCursor) && skipped == |s.entries| - |Since(s.entries, cursor)|
    requires skipped + n <= |s.entries|
    ensures AnyLater(s.entries, LastScanned(s.entries[skipped..], n, cursor)) <==> skipped + n < |s.entries|
  {
    SinceIsSuffix(s.entries, s.nextCursor, cursor);
    MoreIsLeft(s.entries, s.nextCursor, skipped, n, cursor, LastScanned(s.entries[skipped..], n, cursor));
  }

  lemma OneMoreScanned(entries: seq<Entry>, q: Query, skipped: nat, end: nat, left: nat)
    requires skipped <= end < |entries| && 0 < left
    ensures Scanned(entries[end..], q, left) ==
      1 + Scanned(entries[end + 1..], q, if Matches(entries[end], q) then left - 1 else left)
    ensures Matching(entries[skipped..end + 1], q) ==
      Matching(entries[skipped..end], q) + if Matches(entries[end], q) then [entries[end]] else []
  {
    assert entries[end..][1..] == entries[end + 1..];
    assert entries[skipped..end + 1][..end - skipped] == entries[skipped..end];
  }

  /** Between two turns of the loop of `read`, at index `i`: the entries from `skipped` to
      `end` were looked at. */
  ghost predicate Scanning(entries: seq<Entry>, q: Query, cursor: nat, limit: nat, skipped: nat, i: int, end: nat,
                           found: seq<Entry>, scanned: nat)
    requires skipped <= |entries|
  {
    && 0 <= i <= |entries| && end == (if i <= skipped then skipped else i) && |found| <= limit
    && found == Matching(entries[skipped..end], q)
    && scanned == (if end == skipped then cursor else entries[end - 1].cursor)
    && skipped + Scanned(entries[skipped..], q, limit) == end + Scanned(entries[end..], q, limit - |found|)
  }

  lemma ScanningTurn(entries: seq<Entry>, q: Query, cursor: nat, limit: nat, skipped: nat, i: nat, end: nat,
                     found: seq<Entry>, scanned: nat)
    requires skipped <= |entries| && i < |entries| && |found| < limit
    requires Scanning(entries, q, cursor, limit, skipped, i, end, found, scanned)
    ensures i < skipped ==> Scanning(entries, q, cursor, limit, skipped, i + 1, end, found, scanned)
    ensures skipped <= i ==>
      Scanning(entries, q, cursor, limit, skipped, i + 1, end + 1,
        found + (if Matches(entries[i], q) then [entries[i]] else []), entries[i].cursor)
  {
    if skipped <= i { OneMoreScanned(entries, q, skipped, end, limit - |found|); }
    hide Scanned, Matching;
  }

  /** The loop of `read`: finds the matches among the entries from `skipped` on, up to the
      limit, and the cursor of the last entry looked at. */
  method Scan(entries: seq<Entry>, q: Query, cursor: nat, limit: nat, ghost skipped: nat)
    returns (found: seq<Entry>, scanned: nat)
    requires 1 <= limit && skipped <= |entries|
    requires forall i :: 0 <= i < |entries| ==> (entries[i].cursor <= cursor <==> i < skipped)
    ensures var end := skipped + Scanned(entries[skipped..], q, limit);
      found == Matching(entries[skipped..end], q) &&
      scanned == if end == skipped then cursor else entries[end - 1].cursor
  {
    found, scanned := [], cursor;
    ghost var end := skipped;
    assert entries[skipped..skipped] == [];
    NothingLeft(entries, q);
    var i := 0;
    while i < |entries|
      invariant Scanning(entries, q, cursor, limit, skipped, i, end, found, scanned) && |found| < limit
    {
      var e := entries[i];
      ScanningTurn(entries, q, cursor, limit, skipped, i, end, found, scanned);
      hide Scanning;
      i := i + 1;
      if cursor < e.cursor {
        scanned := e.cursor;
        end := end + 1;
        if Matches(e, q) {
          found := found + [e];
          if |found| >= limit { break; }
        } else {
          assert found + [] == found;
        }
      }
    }
  }

  /** Nothing is looked at after the last entry, or after the last match asked for. */
  lemma NothingLeft(entries: seq<Entry>, q: Query)
    ensures forall end :: 0 <= end <= |entries| ==> Scanned(entries[end..], q, 0) == 0
    ensures forall left: nat :: Scanned(entries[|entries|..], q, left) == 0
  {
  }

  predicate AnyLater(entries: seq<Entry>, cursor: nat) {
    exists e :: e in entries && cursor < e.cursor
  }

  /** Entries are left exactly when the scan stopped before the last one. */
  lemma MoreIsLeft(entries: seq<Entry>, nextCursor: nat, skipped: nat, n: nat, cursor: nat, scanned: nat)
    requires Ordered(entries, nextCursor) && skipped + n <= |entries|
    requires forall i :: 0 <= i < |entries| ==> (entries[i].cursor <= cursor <==> i < skipped)
    requires scanned == LastScanned(entries[skipped..], n, cursor)
    ensures AnyLater(entries, scanned) <==> skipped + n < |entries|
  {
    if skipped + n < |entries| { assert entries[skipped + n] in entries; }
  }

  lemma {:induction false} SinceIsSuffix(entries: seq<Entry>, nextCursor: nat, cursor: nat)
    requires Ordered(entries, nextCursor)
    ensures |Since(entries, cursor)| <= |entries|
    ensures Since(entries, cursor) == entries[|entries| - |Since(entries, cursor)|..]
    ensures forall i :: 0 <= i < |entries| ==>
      (entries[i].cursor <= cursor <==> i < |entries| - |Since(entries, cursor)|)
  {
    if entries != [] && entries[0].cursor <= cursor {
      SinceIsSuffix(entries[1..], nextCursor, cursor);
      assert forall i :: 1 <= i < |entries| ==> entries[i] == entries[1..][i - 1];
    }
  }

  // ---------------------------------------------------------------------
  // Every run: the buffer is the newest part of all entries
  // ---------------------------------------------------------------------

  /** `all` are the entries ever stored, `cleared` how many of them the last clear threw
      away together with everything dropped before. */
  datatype World = World(state: State, all: seq<Entry>, cleared: nat)

  const NEW_WORLD := World(NEW_STATE, [], 0)

  function Next(w: World, a: Action): World
    requires 1 <= w.state.bufferSize
  {
    World(Step(w.state, a),
          if a.Arrive? && Accepts(w.state, a.draft) then w.all + [Stored(a.draft, w.state.nextCursor)] else w.all,
          if a.Clear? then |w.all| else w.cleared)
  }

  ghost predicate Inv(w: World) {
    && 1 <= w.state.bufferSize <= MAX_BUFFER_SIZE && FitsBuffer(w.state.entries, w.state.bufferSize)
    && w.state.nextCursor == |w.all| + 1
    && (forall i :: 0 <= i < |w.all| ==> w.all[i].cursor == i + 1)
    && |w.state.entries| <= |w.all| && w.state.entries == w.all[|w.all| - |w.state.entries|..]
    && w.state.dropped + |w.state.entries| + w.cleared == |w.all|
  }

  lemma BoundsKeepInv(w: World, bufferSize: int, entries: seq<Entry>)
    requires 1 <= bufferSize <= MAX_BUFFER_SIZE
    requires w.state.nextCursor == |w.all| + 1 && forall i :: 0 <= i < |w.all| ==> w.all[i].cursor == i + 1
    requires |entries| <= |w.all| && entries == w.all[|w.all| - |entries|..]
    requires w.state.dropped + |entries| + w.cleared == |w.all|
    ensures Inv(w.(state := WithBounds(w.state.(entries := entries, bufferSize := bufferSize))))
  {
    BoundedIsSuffix(entries, bufferSize);
    var kept := Bounded(entries, bufferSize);
    hide Bounded;
    assert entries[|entries| - |kept|..] == w.all[|w.all| - |kept|..];
  }

  lemma StartKeepsInv(w: World, a: Action)
    requires Inv(w) && a.Start? && Startable(a)
    ensures Inv(Next(w, a))
  {
    hide Bounded, FitsBuffer;
    var s := w.state.(active := true, captureConsole := OrElse(a.captureConsole, true),
                      captureErrors := OrElse(a.captureErrors, true));
    BoundsKeepInv(w.(state := s), OrElse(a.bufferSize, DEFAULT_BUFFER_SIZE), w.state.entries);
  }

  lemma ArriveKeepsInv(w: World, d: Draft)
    requires Inv(w) && Accepts(w.state, d)
    ensures Inv(Next(w, Arrive(d)))
  {
    hide Bounded, FitsBuffer;
    var e := Stored(d, w.state.nextCursor);
    var x := World(w.state.(nextCursor := w.state.nextCursor + 1), w.all + [e], w.cleared);
    BoundsKeepInv(x, w.state.bufferSize, w.state.entries + [e]);
  }

  lemma StepKeepsInv(w: World, a: Action)
    requires Inv(w)
    ensures Inv(Next(w, a))
  {
    match a
    case Start(_, _, _) => if Startable(a) { StartKeepsInv(w, a); }
    case Arrive(d) => if Accepts(w.state, d) { ArriveKeepsInv(w, d); }
    case Clear => assert w.all[|w.all|..] == [];
    case Stop =>
  }

  function Run(actions: seq<Action>): (w: World)
    ensures 1 <= w.state.bufferSize
  {
    if actions == [] then NEW_WORLD
    else
      var w := Run(actions[..|actions| - 1]);
      StepKeepsSize(w.state, actions[|actions| - 1]);
      Next(w, actions[|actions| - 1])
  }

  lemma StepKeepsSize(s: State, a: Action)
    requires 1 <= s.bufferSize
    ensures 1 <= Step(s, a).bufferSize
  {
  }

  /** Retained cursors are a contiguous run that ends at `nextCursor` - 1, within both
      bounds, through starts, evictions and clears. */
  lemma {:induction false} EveryRunKeepsInv(actions: seq<Action>)
    ensures Inv(Run(actions))
  {
    if actions != [] {
      EveryRunKeepsInv(actions[..|actions| - 1]);
      StepKeepsInv(Run(actions[..|actions| - 1]), actions[|actions| - 1]);
    }
  }

  lemma RetainedAreOrdered(w: World)
    requires Inv(w)
    ensures Ordered(w.state.entries, w.state.nextCursor)
  {
  }

  /** A newly stored entry is the one that stays, if it fits at all. */
  lemma NewestStays(actions: seq<Action>, d: Draft)
    requires Accepts(Run(actions).state, d) && Stored(d, 0).chars <= MAX_BUFFER_CHARS
    ensures var w := Next(Run(actions), Arrive(d));
      w.state.entries != [] && w.state.entries[|w.state.entries| - 1] == Stored(d, Run(actions).state.nextCursor)
  {
    var w := Run(actions);
    var e := Stored(d, w.state.nextCursor);
    var entries := w.state.entries + [e];
    assert entries[|entries| - 1..] == [e];
    assert TotalChars([e]) == e.chars;
    BoundedIsLongest(entries, w.state.bufferSize, |entries| - 1);
    BoundedIsSuffix(entries, w.state.bufferSize);
  }

  // ---------------------------------------------------------------------
  // What is captured
  // ---------------------------------------------------------------------

  /** A start with valid parameters. */
  predicate Starts(a: Action) {
    && a.Start? && (a.bufferSize.None? || 1 <= a.bufferSize.value <= 5_000)
    && !(a.captureConsole == Some(false) && a.captureErrors == Some(false))
  }

  /** Event `i` is the last start. */
  ghost predicate LastStart(actions: seq<Action>, i: nat) {
    i < |actions| && Starts(actions[i]) && forall j :: i < j < |actions| ==> !Starts(actions[j])
  }

  ghost predicate NeverStarted(actions: seq<Action>) {
    forall i :: 0 <= i < |actions| ==> !Starts(actions[i])
  }

  ghost predicate NotStopped(actions: seq<Action>, i: nat) {
    forall j :: i < j < |actions| ==> !actions[j].Stop?
  }

  lemma LastStartAfter(actions: seq<Action>, a: Action, i: nat)
    ensures LastStart(actions + [a], i) <==> if Starts(a) then i == |actions| else LastStart(actions, i)
    ensures i < |actions| ==> (NotStopped(actions + [a], i) <==> NotStopped(actions, i) && !a.Stop?)
    ensures NotStopped(actions + [a], |actions|)
    ensures NeverStarted(actions + [a]) <==> NeverStarted(actions) && !Starts(a)
  {
    var next := actions + [a];
    assert next[|actions|] == a && forall j :: 0 <= j < |actions| ==> next[j] == actions[j];
  }

  lemma SettingsStep(s: State, a: Action)
    requires 1 <= s.bufferSize
    ensures var x := Step(s, a);
      if Starts(a) then
        && x.active && x.bufferSize == OrElse(a.bufferSize, 1_000)
        && (x.captureConsole <==> a.captureConsole != Some(false))
        && (x.captureErrors <==> a.captureErrors != Some(false))
      else
        && x.active == (s.active && !a.Stop?) && x.bufferSize == s.bufferSize
        && x.captureConsole == s.captureConsole && x.captureErrors == s.captureErrors
  {
    hide Bounded, Stored;
  }

  /** Capture is on from a valid start to the next stop, with the settings of that start. */
  lemma {:induction false} SettingsAreTheLastStart(actions: seq<Action>, i: nat)
    requires LastStart(actions, i)
    ensures var s := Run(actions).state;
      && (s.active <==> NotStopped(actions, i))
      && s.bufferSize == OrElse(actions[i].bufferSize, 1_000)
      && (s.captureConsole <==> actions[i].captureConsole != Some(false))
      && (s.captureErrors <==> actions[i].captureErrors != Some(false))
  {
    var init, a := actions[..|actions| - 1], actions[|actions| - 1];
    hide Step, Starts;
    assert init + [a] == actions;
    LastStartAfter(init, a, i);
    SettingsStep(Run(init).state, a);
    if !Starts(a) { SettingsAreTheLastStart(init, i); }
  }

  lemma {:induction false} NothingBeforeTheFirstStart(actions: seq<Action>)
    requires NeverStarted(actions)
    ensures !Run(actions).state.active && Run(actions).state.bufferSize == 1_000
  {
    if actions != [] {
      var init, a := actions[..|actions| - 1], actions[|actions| - 1];
      hide Step, Starts;
      assert init + [a] == actions;
      LastStartAfter(init, a, 0);
      SettingsStep(Run(init).state, a);
      NothingBeforeTheFirstStart(init);
    }
  }

  lemma {:induction false} StartedOrNever(actions: seq<Action>)
    ensures NeverStarted(actions) || exists i: nat :: LastStart(actions, i)
  {
    if actions != [] {
      var init, a := actions[..|actions| - 1], actions[|actions| - 1];
      assert init + [a] == actions;
      StartedOrNever(init);
      forall i: nat
        ensures LastStart(actions, i) <==> if Starts(a) then i == |init| else LastStart(init, i)
      {
        LastStartAfter(init, a, i);
      }
      LastStartAfter(init, a, 0);
      if Starts(a) { assert LastStart(actions, |init|); }
    }
  }

  /** The last start, if capture was not stopped since, captures entries of this kind. */
  ghost predicate Captured(actions: seq<Action>, kind: Kind) {
    exists i: nat :: LastStart(actions, i) && NotStopped(actions, i) &&
      (if kind == Console then actions[i].captureConsole else actions[i].captureErrors) != Some(false)
  }

  lemma AcceptsIff(actions: seq<Action>, d: Draft)
    ensures Accepts(Run(actions).state, d) <==> Captured(actions, d.kind)
  {
    hide Run, LastStart, NotStopped;
    StartedOrNever(actions);
    if i: nat :| LastStart(actions, i) {
      forall j: nat | LastStart(actions, j)
        ensures j == i
      {
        OneLastStart(actions, i, j);
      }
      SettingsAreTheLastStart(actions, i);
    } else {
      NothingBeforeTheFirstStart(actions);
    }
  }

  lemma OneLastStart(actions: seq<Action>, i: nat, j: nat)
    requires LastStart(actions, i) && LastStart(actions, j)
    ensures i == j
  {
  }

  /** What is kept of an entry that arrives: all of it, or if its JSON is too long, all but
      its arguments and what its stack has after 2,000 characters. */
  ghost predicate Keeps(e: Entry, d: Draft, cursor: nat) {
    && e.cursor == cursor && e.timestamp == d.timestamp && e.level == d.level && e.kind == d.kind
    && e.details == d.details && (e.truncated <==> d.chars > 32_000)
    && (!e.truncated ==> e.args == d.args && e.stack == d.stack && e.chars == d.chars)
    && (e.truncated ==>
          var stack := OrElse(d.stack, "");
          && e.args == ["[Console arguments exceeded the per-entry limit]"] && e.chars == d.shortChars
          && e.stack.Some? && e.stack.value <= stack && |e.stack.value| == Min(|stack|, 2_000))
  }

  function Min(a: int, b: int): int {
    if a < b then a else b
  }

  /** Over any run: an entry is stored if and only if the last start captures it and was
      not stopped, it gets the next cursor, and nothing else is stored. */
  lemma StoredIffCaptured(actions: seq<Action>, a: Action)
    ensures var before, after := Run(actions).all, Run(actions + [a]).all;
      if a.Arrive? && Captured(actions, a.draft.kind) then
        && |after| == |before| + 1 && after[..|before|] == before
        && Keeps(after[|before|], a.draft, |before| + 1)
      else after == before
  {
    assert (actions + [a])[..|actions|] == actions;
    EveryRunKeepsInv(actions);
    if a.Arrive? { AcceptsIff(actions, a.draft); }
    hide Step, Captured, FitsBuffer;
  }

  /** What is retained after a step, other than a clear: as many of the newest entries, the
      one just stored included, as both bounds allow. */
  lemma RetainedIsLongest(actions: seq<Action>, a: Action, n: nat)
    requires !a.Clear?
    ensures var w, x := Run(actions), Run(actions + [a]);
      var offered := |w.state.entries| + |x.all| - |w.all|;
      && |x.state.entries| <= offered <= |x.all|
      && (n <= offered && n <= x.state.bufferSize && TotalChars(x.all[|x.all| - n..]) <= 2_000_000 ==>
            n <= |x.state.entries|)
  {
    var w := Run(actions);
    assert (actions + [a])[..|actions|] == actions;
    EveryRunKeepsInv(actions);
    hide Run, Next;
    NextRetainsLongest(w, a, n);
  }

  lemma NextRetainsLongest(w: World, a: Action, n: nat)
    requires Inv(w) && !a.Clear?
    ensures var x := Next(w, a);
      var offered := |w.state.entries| + |x.all| - |w.all|;
      && |x.state.entries| <= offered <= |x.all|
      && (n <= offered && n <= x.state.bufferSize && TotalChars(x.all[|x.all| - n..]) <= 2_000_000 ==>
            n <= |x.state.entries|)
  {
    var x := Next(w, a);
    hide *;
    var stored := NextStores(w, a);
    var entries := w.state.entries + stored;
    if n <= |entries| {
      assert x.all[|x.all| - |entries|..][|entries| - n..] == x.all[|x.all| - n..];
      if n <= x.state.bufferSize && TotalChars(x.all[|x.all| - n..]) <= 2_000_000 {
        FitsIff(entries[|entries| - n..], x.state.bufferSize);
        BoundedIsLongest(entries, x.state.bufferSize, |entries| - n);
      }
    }
  }

  /** The entries a step has to fit into the buffer. */
  lemma NextStores(w: World, a: Action) returns (stored: seq<Entry>)
    requires Inv(w) && !a.Clear?
    ensures var x := Next(w, a);
      var entries := w.state.entries + stored;
      && x.all == w.all + stored && 1 <= x.state.bufferSize
      && |entries| <= |x.all| && entries == x.all[|x.all| - |entries|..]
      && x.state.entries == Bounded(entries, x.state.bufferSize)
  {
    stored := if a.Arrive? && Accepts(w.state, a.draft) then [Stored(a.draft, w.state.nextCursor)] else [];
    hide Accepts, Stored, Step;
    StepRetains(w.state, a, w.state.entries + stored);
    OfferedIsSuffix(w, stored);
  }

  lemma FitsIff(entries: seq<Entry>, bufferSize: int)
    ensures FitsBuffer(entries, bufferSize) <==> |entries| <= bufferSize && TotalChars(entries) <= 2_000_000
  {
  }

  lemma OfferedIsSuffix(w: World, stored: seq<Entry>)
    requires Inv(w)
    ensures var entries, all := w.state.entries + stored, w.all + stored;
      |entries| <= |all| && entries == all[|all| - |entries|..]
  {
    hide FitsBuffer;
  }

  lemma StepRetains(s: State, a: Action, entries: seq<Entry>)
    requires 1 <= s.bufferSize && !a.Clear? && FitsBuffer(s.entries, s.bufferSize)
    requires entries ==
      s.entries + if a.Arrive? && Accepts(s, a.draft) then [Stored(a.draft, s.nextCursor)] else []
    ensures 1 <= Step(s, a).bufferSize
    ensures Step(s, a).entries == Bounded(entries, Step(s, a).bufferSize)
  {
    assert s.entries + [] == s.entries;
    hide Stored, Accepts;
  }

  /** A clear forgets every entry; cursors go on. */
  lemma ClearForgetsAll(actions: seq<Action>)
    ensures var w, x := Run(actions), Run(actions + [Clear]);
      && x.state.entries == [] && x.state.dropped == 0 && x.cleared == |w.all|
      && x.state.nextCursor == w.state.nextCursor
  {
    assert (actions + [Clear])[..|actions|] == actions;
  }

  // ---------------------------------------------------------------------
  // Paging
  // ---------------------------------------------------------------------

  /** What a query asks for. */
  predicate Wanted(e: Entry, q: Query, cursor: nat) {
    && cursor < e.cursor && e.timestamp >= q.since
    && (q.levels.None? || e.level in q.levels.value) && (q.kinds.None? || e.kind in q.kinds.value)
  }

  lemma {:induction false} ScannedToLimit(entries: seq<Entry>, q: Query, limit: nat)
    ensures var n := Scanned(entries, q, limit);
      |Matching(entries[..n], q)| <= limit && (n < |entries| ==> |Matching(entries[..n], q)| == limit)
  {
    var n := Scanned(entries, q, limit);
    if n == 0 {
      assert entries[..0] == [];
    } else {
      var rest, left := entries[1..], if Matches(entries[0], q) then limit - 1 else limit;
      ScannedToLimit(rest, q, left);
      MatchingOfConcat([entries[0]], rest[..n - 1], q);
      assert entries[..n] == [entries[0]] + rest[..n - 1];
      assert [entries[0]][..0] == [];
    }
  }

  /** What one page holds, after any run: the entries that are retained and asked for, up
      to the page's next cursor, in order; it is full if anything is left, and it says so. */
  lemma PageIsExact(actions: seq<Action>, q: Query, cursor: nat, limit: nat)
    requires 1 <= limit
    ensures var retained, page := Run(actions).state.entries, ReadPage(Run(actions).state, q, cursor, limit);
      && Increasing(page.entries) && cursor <= page.nextCursor
      && (forall e :: e in page.entries <==> e in retained && Wanted(e, q, cursor) && e.cursor <= page.nextCursor)
      && |page.entries| <= limit && (page.hasMore ==> |page.entries| == limit)
      && (page.hasMore <==> exists e :: e in retained && page.nextCursor < e.cursor)
  {
    hide *;
    var s := Run(actions).state;
    EveryRunKeepsInv(actions);
    RetainedAreOrdered(Run(actions));
    var rest := Since(s.entries, cursor);
    var n := Scanned(rest, q, limit);
    ScannedToLimit(rest, q, limit);
    SinceIsOrdered(s.entries, s.nextCursor, cursor);
    PrefixByCursor(rest, n, cursor);
    MatchingIsOrdered(rest[..n], q);
    PageParts(s, q, cursor, limit);
    forall e
      ensures Wanted(e, q, cursor) <==> cursor < e.cursor && Matches(e, q)
    {
      WantedIff(e, q, cursor);
    }
  }

  lemma PageParts(s: State, q: Query, cursor: nat, limit: nat)
    ensures var rest, page := Since(s.entries, cursor), ReadPage(s, q, cursor, limit);
      var n := Scanned(rest, q, limit);
      && page.entries == Matching(rest[..n], q) && page.nextCursor == LastScanned(rest, n, cursor)
      && page.hasMore == (n < |rest|)
  {
  }

  /** In a list with increasing cursors, what was looked at has no later cursor than the
      last entry looked at, and the rest has. */
  lemma PrefixByCursor(rest: seq<Entry>, n: nat, cursor: nat)
    requires Increasing(rest) && n <= |rest| && forall e :: e in rest ==> cursor < e.cursor
    ensures var next := LastScanned(rest, n, cursor);
      && cursor <= next && Increasing(rest[..n])
      && (forall e :: e in rest[..n] <==> e in rest && e.cursor <= next)
      && (n < |rest| <==> exists e :: e in rest && next < e.cursor)
  {
    var next := LastScanned(rest, n, cursor);
    forall e | e in rest && e.cursor <= next
      ensures e in rest[..n]
    {
      var i :| 0 <= i < |rest| && rest[i] == e;
      assert i < n && rest[..n][i] == e;
    }
    if n < |rest| { assert rest[n] in rest; }
  }

  ghost predicate LostAfter(w: World, cursor: nat) {
    exists e :: e in w.all && cursor < e.cursor && e !in w.state.entries
  }

  /** A read after a positive cursor reports expiry if and only if a later entry was lost;
      a read from the start never does. */
  lemma ExpiredIffLost(actions: seq<Action>, q: Query, cursor: nat, limit: nat)
    ensures ReadPage(Run(actions).state, q, cursor, limit).cursorExpired <==>
      0 < cursor && LostAfter(Run(actions), cursor)
  {
    var w := Run(actions);
    EveryRunKeepsInv(actions);
    var lost := |w.all| - |w.state.entries|;
    hide Since, Scanned, Matching;
    assert OldestCursor(w.state) == lost + 1;
    if cursor < lost {
      assert w.all[cursor] in w.all && w.all[cursor].cursor == cursor + 1;
      assert w.all[cursor] !in w.state.entries;
    }
    forall i | lost <= i < |w.all|
      ensures w.all[i] in w.state.entries
    {
      assert w.state.entries[i - lost] == w.all[i];
    }
  }

  lemma {:induction false} MatchingOfConcat(a: seq<Entry>, b: seq<Entry>, q: Query)
    ensures Matching(a + b, q) == Matching(a, q) + Matching(b, q)
  {
    if b == [] {
      assert a + b == a;
    } else {
      var init := b[..|b| - 1];
      MatchingOfConcat(a, init, q);
      assert (a + b)[..|a + b| - 1] == a + init;
    }
  }

  /** What a page contains, and where the next one starts. */
  lemma PageIsSlice(s: State, q: Query, cursor: nat, limit: nat)
    requires Ordered(s.entries, s.nextCursor)
    ensures var rest := Since(s.entries, cursor);
      var page := ReadPage(s, q, cursor, limit);
      var n := Scanned(rest, q, limit);
      && page.entries == Matching(rest[..n], q) && Since(s.entries, page.nextCursor) == rest[n..]
      && (page.hasMore ==> n < |rest|) && (1 <= limit && rest != [] ==> 0 < n)
      && cursor <= page.nextCursor
  {
    SinceIsSuffix(s.entries, s.nextCursor, cursor);
    var rest := Since(s.entries, cursor);
    var n := Scanned(rest, q, limit);
    var next := ReadPage(s, q, cursor, limit).nextCursor;
    SinceIsSuffix(s.entries, s.nextCursor, next);
    hide Since, Matching;
    if n == 0 {
      assert rest[0..] == rest;
    } else {
      var after := Since(s.entries, next);
      var i := |s.entries| - |rest| + n - 1;
      assert s.entries[i].cursor == next && (i + 1 < |s.entries| ==> next < s.entries[i + 1].cursor);
      assert |s.entries| - |after| == i + 1;
    }
  }

  /** Reading page after page until there is no more. */
  function ReadAll(s: State, q: Query, cursor: nat, limit: nat): seq<Entry>
    requires Ordered(s.entries, s.nextCursor) && 1 <= limit
    decreases |Since(s.entries, cursor)|
  {
    PageIsSlice(s, q, cursor, limit);
    var page := ReadPage(s, q, cursor, limit);
    if page.hasMore then page.entries + ReadAll(s, q, page.nextCursor, limit) else page.entries
  }

  lemma {:induction false} PagesJoin(s: State, q: Query, cursor: nat, limit: nat)
    requires Ordered(s.entries, s.nextCursor) && 1 <= limit
    ensures ReadAll(s, q, cursor, limit) == Matching(Since(s.entries, cursor), q)
    decreases |Since(s.entries, cursor)|
  {
    PageIsSlice(s, q, cursor, limit);
    var rest := Since(s.entries, cursor);
    var n := Scanned(rest, q, limit);
    MatchingOfConcat(rest[..n], rest[n..], q);
    assert rest == rest[..n] + rest[n..];
    var page := ReadPage(s, q, cursor, limit);
    if page.hasMore {
      PagesJoin(s, q, page.nextCursor, limit);
    } else {
      assert rest[n..] == [];
    }
  }

  /** After any run, paging ends and returns each retained matching entry exactly once, in
      order. */
  lemma PagingReadsEverythingOnce(actions: seq<Action>, q: Query, cursor: nat, limit: nat)
    requires 1 <= limit
    ensures var s := Run(actions).state;
      && Ordered(s.entries, s.nextCursor) && Increasing(ReadAll(s, q, cursor, limit))
      && forall e :: e in ReadAll(s, q, cursor, limit) <==> e in s.entries && Wanted(e, q, cursor)
  {
    EveryRunKeepsInv(actions);
    RetainedAreOrdered(Run(actions));
    hide *;
    var s := Run(actions).state;
    PagesJoin(s, q, cursor, limit);
    forall e
      ensures Wanted(e, q, cursor) <==> cursor < e.cursor && Matches(e, q)
    {
      WantedIff(e, q, cursor);
    }
    SinceIsOrdered(s.entries, s.nextCursor, cursor);
    MatchingIsOrdered(Since(s.entries, cursor), q);
  }

  lemma WantedIff(e: Entry, q: Query, cursor: nat)
    ensures Wanted(e, q, cursor) <==> cursor < e.cursor && Matches(e, q)
  {
  }

  lemma SinceIsOrdered(entries: seq<Entry>, nextCursor: nat, cursor: nat)
    requires Ordered(entries, nextCursor)
    ensures Increasing(Since(entries, cursor))
    ensures forall e :: e in Since(entries, cursor) <==> e in entries && cursor < e.cursor
  {
    hide Since, Ordered;
    var rest := Since(entries, cursor);
    SinceIsSuffix(entries, nextCursor, cursor);
    IsOrderedTail(entries, rest, nextCursor, cursor, |entries| - |rest|);
  }

  lemma IsOrderedTail(entries: seq<Entry>, rest: seq<Entry>, nextCursor: nat, cursor: nat, skipped: nat)
    requires Ordered(entries, nextCursor) && skipped <= |entries| && rest == entries[skipped..]
    requires forall i :: 0 <= i < |entries| ==> (entries[i].cursor <= cursor <==> i < skipped)
    ensures Increasing(rest) && forall e :: e in rest <==> e in entries && cursor < e.cursor
  {
    forall e | e in entries && cursor < e.cursor
      ensures e in rest
    {
      var i :| 0 <= i < |entries| && entries[i] == e;
      assert rest[i - skipped] == e;
    }
    assert forall i :: 0 <= i < |rest| ==> rest[i] == entries[skipped + i];
  }

  // ---------------------------------------------------------------------
  // Following the console while it is written
  // ---------------------------------------------------------------------

  /** A reader that follows `nextCursor`; `intact` while no read reported expiry. */
  datatype Follower = Follower(world: World, cursor: nat, got: seq<Entry>, intact: bool)

  datatype Move = Write(action: Action) | Follow(limit: nat)

  function Moved(f: Follower, q: Query, m: Move): Follower
    requires 1 <= f.world.state.bufferSize
  {
    match m
    case Write(a) => f.(world := Next(f.world, a))
    case Follow(limit) =>
      var page := ReadPage(f.world.state, q, f.cursor, limit);
      f.(cursor := page.nextCursor, got := f.got + page.entries, intact := f.intact && !page.cursorExpired)
  }

  function Followed(f: Follower, q: Query, moves: seq<Move>): (g: Follower)
    requires 1 <= f.world.state.bufferSize
    ensures 1 <= g.world.state.bufferSize
  {
    if moves == [] then f
    else
      var g := Followed(f, q, moves[..|moves| - 1]);
      var m := moves[|moves| - 1];
      if m.Write? then StepKeepsSize(g.world.state, m.action); Moved(g, q, m) else Moved(g, q, m)
  }

  predicate Increasing(entries: seq<Entry>) {
    forall i, j :: 0 <= i < j < |entries| ==> entries[i].cursor < entries[j].cursor
  }

  /** Matching entries of the history, with cursors in a range. */
  predicate Drawn(entries: seq<Entry>, all: seq<Entry>, q: Query, low: nat, high: nat) {
    forall e :: e in entries ==> e in all && low < e.cursor <= high && Matches(e, q)
  }

  /** What a follower has: entries of the whole history, in order, none twice; all that
      match between its start and its cursor as long as nothing was reported lost. */
  ghost predicate FollowsWell(f: Follower, q: Query, start: nat) {
    && Inv(f.world) && start <= f.cursor < f.world.state.nextCursor
    && Increasing(f.got) && Drawn(f.got, f.world.all, q, start, f.cursor)
    && (f.intact ==> f.got == Matching(f.world.all[start..f.cursor], q))
  }

  lemma {:induction false} MatchingIsOrdered(entries: seq<Entry>, q: Query)
    requires Increasing(entries)
    ensures Increasing(Matching(entries, q))
    ensures forall e :: e in Matching(entries, q) <==> e in entries && Matches(e, q)
  {
    if entries != [] {
      var init, last := entries[..|entries| - 1], entries[|entries| - 1];
      MatchingIsOrdered(init, q);
      assert entries == init + [last];
      forall e | e in Matching(init, q)
        ensures e.cursor < last.cursor
      {
        var i :| 0 <= i < |init| && init[i] == e;
        assert entries[i] == e;
      }
    }
  }

  /** Where a read starts in the history. */
  function From(w: World, cursor: nat): nat
    requires |w.state.entries| <= |w.all|
  {
    Max(cursor, |w.all| - |w.state.entries|)
  }

  lemma RestIsHistory(w: World, cursor: nat)
    requires Inv(w) && cursor < w.state.nextCursor
    ensures From(w, cursor) <= |w.all| && Since(w.state.entries, cursor) == w.all[From(w, cursor)..]
  {
    var entries := w.state.entries;
    SinceIsSuffix(entries, w.state.nextCursor, cursor);
    hide Since, FitsBuffer;
    var from, lost := From(w, cursor), |w.all| - |entries|;
    assert lost < from ==> entries[from - lost - 1].cursor == from;
    assert from < |w.all| ==> entries[from - lost].cursor == from + 1;
    assert |entries| - |Since(entries, cursor)| == from - lost;
  }

  /** One more page: the entries of the history up to the next cursor, or what is left of
      them. */
  lemma PageOfHistory(w: World, q: Query, cursor: nat, limit: nat)
    requires Inv(w) && cursor < w.state.nextCursor
    ensures var page := ReadPage(w.state, q, cursor, limit);
      var from := From(w, cursor);
      && page.nextCursor < w.state.nextCursor
      && (if page.nextCursor <= from then page.nextCursor == cursor && page.entries == []
          else page.entries == Matching(w.all[from..page.nextCursor], q))
  {
    RestIsHistory(w, cursor);
    var from := From(w, cursor);
    var rest := w.all[from..];
    var n := Scanned(rest, q, limit);
    hide Since, Scanned, FitsBuffer;
    if 0 < n {
      assert rest[n - 1] == w.all[from + n - 1];
      assert rest[..n] == w.all[from..from + n];
    } else {
      assert rest[..0] == [];
    }
  }

  function Max(a: int, b: int): int {
    if a < b then b else a
  }

  lemma SliceIsDrawn(w: World, q: Query, low: nat, high: nat)
    requires Inv(w) && low <= high <= |w.all|
    ensures Increasing(Matching(w.all[low..high], q)) && Drawn(Matching(w.all[low..high], q), w.all, q, low, high)
  {
    hide FitsBuffer;
    MatchingIsOrdered(w.all[low..high], q);
  }

  lemma MoreGot(got: seq<Entry>, page: seq<Entry>, all: seq<Entry>, q: Query, start: nat, cursor: nat, from: nat,
                next: nat)
    requires Increasing(got) && Drawn(got, all, q, start, cursor) && cursor <= from <= next && start <= cursor
    requires Increasing(page) && Drawn(page, all, q, from, next)
    ensures Increasing(got + page) && Drawn(got + page, all, q, start, next)
  {
    forall i, j | 0 <= i < |got| && 0 <= j < |page|
      ensures got[i].cursor < page[j].cursor
    {
      assert got[i] in got && page[j] in page;
    }
  }

  lemma IntactPage(w: World, q: Query, start: nat, cursor: nat, next: nat)
    requires start <= cursor <= next <= |w.all|
    ensures Matching(w.all[start..cursor], q) + Matching(w.all[cursor..next], q) == Matching(w.all[start..next], q)
  {
    MatchingOfConcat(w.all[start..cursor], w.all[cursor..next], q);
    assert w.all[start..cursor] + w.all[cursor..next] == w.all[start..next];
  }

  lemma FollowKeeps(f: Follower, q: Query, start: nat, limit: nat)
    requires FollowsWell(f, q, start) && 0 < start
    ensures FollowsWell(Moved(f, q, Follow(limit)), q, start)
  {
    var w := f.world;
    var page := ReadPage(w.state, q, f.cursor, limit);
    var from := From(w, f.cursor);
    PageOfHistory(w, q, f.cursor, limit);
    assert page.cursorExpired <==> f.cursor < from;
    hide ReadPage, FitsBuffer, Matching;
    if from < page.nextCursor {
      SliceIsDrawn(w, q, from, page.nextCursor);
      hide Inv;
      MoreGot(f.got, page.entries, w.all, q, start, f.cursor, from, page.nextCursor);
      IntactPage(w, q, start, f.cursor, page.nextCursor);
    }
  }

  lemma WriteKeeps(f: Follower, q: Query, start: nat, a: Action)
    requires FollowsWell(f, q, start)
    ensures FollowsWell(Moved(f, q, Write(a)), q, start)
  {
    StepKeepsInv(f.world, a);
    var x := Next(f.world, a);
    hide Matching, Step, FitsBuffer;
    assert f.world.all <= x.all;
    assert x.all[start..f.cursor] == f.world.all[start..f.cursor];
    assert |x.all| >= |f.world.all|;
  }

  /** Over any interleaving of reads with arrivals, evictions, clears and restarts: no
      entry is returned twice or out of order, and if no read reported expiry the follower
      has every entry that matches. */
  lemma {:induction false} FollowingIsComplete(f: Follower, q: Query, start: nat, moves: seq<Move>)
    requires FollowsWell(f, q, start) && 0 < start
    ensures FollowsWell(Followed(f, q, moves), q, start)
  {
    if moves != [] {
      FollowingIsComplete(f, q, start, moves[..|moves| - 1]);
      var g := Followed(f, q, moves[..|moves| - 1]);
      match moves[|moves| - 1]
      case Write(a) => WriteKeeps(g, q, start, a);
      case Follow(limit) => FollowKeeps(g, q, start, limit);
    }
  }

  /** Following may start at any cursor handed out in any run. */
  lemma FollowersMayStart(actions: seq<Action>, q: Query, start: nat)
    requires start < Run(actions).state.nextCursor
    ensures FollowsWell(Follower(Run(actions), start, [], true), q, start)
  {
    EveryRunKeepsInv(actions);
    assert Run(actions).all[start..start] == [];
  }
}
