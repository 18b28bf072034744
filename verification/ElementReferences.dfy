/** References to page elements (chrome-extension/src/locator-engine.js): a table in
    insertion order that forgets what expired, what was detached, and, when it is full,
    what was used least recently. */
module ElementReferences {
  import opened Text

  const MAX_REFERENCES := 5_000

  /** Elements are numbered; which of them are attached is a parameter. */
  type Element = nat

  datatype Reference = Reference(id: string, element: Element, documentId: string, expiresAt: int)

  predicate IsLive(r: Reference, now: int, attached: set<Element>) {
    now < r.expiresAt && r.element in attached
  }

  // ---------------------------------------------------------------------
  // A JavaScript map, in insertion order
  // ---------------------------------------------------------------------

  function Without(refs: seq<Reference>, id: string): seq<Reference> {
    if refs == [] then []
    else
      var rest := Without(refs[..|refs| - 1], id);
      var last := refs[|refs| - 1];
      if last.id == id then rest else rest + [last]
  }

  function Purged(refs: seq<Reference>, now: int, attached: set<Element>): seq<Reference> {
    if refs == [] then []
    else
      var rest := Purged(refs[..|refs| - 1], now, attached);
      var last := refs[|refs| - 1];
      if IsLive(last, now, attached) then rest + [last] else rest
  }

  /** The newest entries that leave room for one more. */
  function Shifted(refs: seq<Reference>): seq<Reference> {
    if MAX_REFERENCES <= |refs| then refs[|refs| - MAX_REFERENCES + 1..] else refs
  }

  function RoomMade(refs: seq<Reference>, now: int, attached: set<Element>): seq<Reference> {
    Shifted(if MAX_REFERENCES <= |refs| then Purged(refs, now, attached) else refs)
  }

  function Created(refs: seq<Reference>, r: Reference, now: int, attached: set<Element>): seq<Reference> {
    RoomMade(Without(refs, r.id), now, attached) + [r]
  }

  predicate Has(refs: seq<Reference>, id: string) {
    exists i :: 0 <= i < |refs| && refs[i].id == id
  }

  predicate Distinct(refs: seq<Reference>) {
    forall i, j :: 0 <= i < j < |refs| ==> refs[i].id != refs[j].id
  }

  // ---------------------------------------------------------------------
  // The table
  // ---------------------------------------------------------------------

  class ReferenceTable {
    const ttl: int
    var references: seq<Reference>
    var elementIDs: map<Element, string>

    constructor (ttl: int)
      ensures this.ttl == ttl && references == [] && elementIDs == map[]
    {
      this.ttl, references, elementIDs := ttl, [], map[];
    }

    method Delete(id: string)
      modifies this`references
      ensures references == Without(old(references), id)
    {
      var kept: seq<Reference> := [];
      for i := 0 to |references|
        invariant kept == Without(references[..i], id)
      {
        assert references[..i + 1][..i] == references[..i];
        if references[i].id != id { kept := kept + [references[i]]; }
      }
      assert references[..|references|] == references;
      references := kept;
    }

    /** Removes while it walks. */
    method Purge(now: int, attached: set<Element>)
      modifies this`references
      ensures references == Purged(old(references), now, attached)
    {
      var i := 0;
      ghost var walked := 0;
      while i < |references|
        invariant i <= |references| && walked + |references| - i == |old(references)| && 0 <= walked
        invariant references[..i] == Purged(old(references)[..walked], now, attached)
        invariant references[i..] == old(references)[walked..]
        decreases |references| - i
      {
        assert references[i] == old(references)[walked];
        assert old(references)[..walked + 1][..walked] == old(references)[..walked];
        if IsLive(references[i], now, attached) {
          assert references[..i + 1] == references[..i] + [references[i]];
          i := i + 1;
        } else {
          ghost var before := references;
          references := references[..i] + references[i + 1..];
          assert references[..i] == before[..i] && references[i..] == before[i + 1..] == before[i..][1..];
        }
        assert old(references)[walked..][1..] == old(references)[walked + 1..];
        walked := walked + 1;
      }
      assert references[..i] == references && old(references)[..walked] == old(references);
    }

    /** Fails without a document; `newID` is what the id generator will deliver. */
    method CreateReference(element: Element, documentId: string, newID: string, now: int, attached: set<Element>)
      returns (id: Option<string>)
      modifies this
      ensures documentId == "" ==> id == None && references == old(references) && elementIDs == old(elementIDs)
      ensures documentId != "" ==>
        && id == Some(if element in old(elementIDs) then old(elementIDs)[element] else newID)
        && elementIDs == (if element in old(elementIDs) then old(elementIDs) else old(elementIDs)[element := newID])
        && references == Created(old(references), Reference(id.value, element, documentId, now + ttl), now, attached)
    {
      if documentId == "" { return None; }
      if element !in elementIDs {
        elementIDs := elementIDs[element := newID];
      }
      var e := elementIDs[element];
      Delete(e);
      MakeRoom(now, attached);
      references := references + [Reference(e, element, documentId, now + ttl)];
      id := Some(e);
    }

    method MakeRoom(now: int, attached: set<Element>)
      modifies this`references
      ensures references == RoomMade(old(references), now, attached)
    {
      if |references| >= MAX_REFERENCES { Purge(now, attached); }
      ghost var purged := references;
      while |references| >= MAX_REFERENCES
        invariant |references| <= |purged| && references == purged[|purged| - |references|..]
        invariant |references| == |purged| || MAX_REFERENCES - 1 <= |references|
        decreases |references|
      {
        references := references[1..];
      }
    }

    /** Success moves the reference to the end; most failures remove it. */
    method ResolveReference(id: string, expected: string, documentId: string, now: int, attached: set<Element>)
      returns (element: Option<Element>)
      requires Distinct(references)
      modifies this`references
      ensures element == ResolvedTo(old(references), id, expected, documentId, now, attached)
      ensures references == Resolved(old(references), id, expected, documentId, now, attached, ttl)
    {
      if documentId == "" || expected != documentId { return None; }
      var stored := Get(id);
      if stored.None? || stored.value.documentId != documentId || !IsLive(stored.value, now, attached) {
        Delete(id);
        return None;
      }
      Delete(id);
      references := references + [stored.value.(expiresAt := now + ttl)];
      element := Some(stored.value.element);
    }

    method Get(id: string) returns (r: Option<Reference>)
      requires Distinct(references)
      ensures r == Stored(references, id)
    {
      StoredIsTheOne(references, id);
      for i := 0 to |references|
        invariant forall j :: 0 <= j < i ==> references[j].id != id
      {
        if references[i].id == id { return Some(references[i]); }
      }
      r := None;
    }
  }

  // ---------------------------------------------------------------------
  // Specification of resolving
  // ---------------------------------------------------------------------

  function Stored(refs: seq<Reference>, id: string): Option<Reference> {
    if refs == [] then None
    else if refs[|refs| - 1].id == id then Some(refs[|refs| - 1])
    else Stored(refs[..|refs| - 1], id)
  }

  lemma {:induction false} StoredIsTheOne(refs: seq<Reference>, id: string)
    requires Distinct(refs)
    ensures Stored(refs, id).None? <==> !Has(refs, id)
    ensures forall i :: 0 <= i < |refs| && refs[i].id == id ==> Stored(refs, id) == Some(refs[i])
  {
    if refs != [] {
      StoredIsTheOne(refs[..|refs| - 1], id);
      assert forall i :: 0 <= i < |refs| - 1 ==> refs[i] == refs[..|refs| - 1][i];
      assert refs[|refs| - 1].id == id ==> Has(refs, id);
      if Has(refs, id) && refs[|refs| - 1].id != id { assert Has(refs[..|refs| - 1], id); }
      if Has(refs[..|refs| - 1], id) {
        var i :| 0 <= i < |refs| - 1 && refs[..|refs| - 1][i].id == id;
        assert refs[i].id == id;
      }
    }
  }

  predicate Resolvable(refs: seq<Reference>, id: string, documentId: string, now: int, attached: set<Element>) {
    var stored := Stored(refs, id);
    stored.Some? && stored.value.documentId == documentId && IsLive(stored.value, now, attached)
  }

  function ResolvedTo(refs: seq<Reference>, id: string, expected: string, documentId: string, now: int,
                      attached: set<Element>): Option<Element>
  {
    if documentId == "" || expected != documentId || !Resolvable(refs, id, documentId, now, attached) then None
    else Some(Stored(refs, id).value.element)
  }

  function Resolved(refs: seq<Reference>, id: string, expected: string, documentId: string, now: int,
                    attached: set<Element>, ttl: int): seq<Reference>
  {
    if documentId == "" || expected != documentId then refs
    else if !Resolvable(refs, id, documentId, now, attached) then Without(refs, id)
    else Without(refs, id) + [Stored(refs, id).value.(expiresAt := now + ttl)]
  }

  // ---------------------------------------------------------------------
  // Every run
  // ---------------------------------------------------------------------

  /** Why a reference is not in the table any more. */
  datatype Loss = Present | Evicted | Expired | Detached | Misplaced

  /** The latest use of an id: the reference it had then, and when that was in the order of
      all uses. */
  datatype Use = Use(reference: Reference, order: nat, loss: Loss)

  /** `log` remembers every id ever handed out. */
  datatype World = World(refs: seq<Reference>, ids: map<Element, string>, log: map<string, Use>, clock: int, uses: nat)

  datatype Action =
    | Tick(to: int)
    | Create(element: Element, documentId: string, newID: string, attached: set<Element>)
    | Resolve(id: string, expected: string, documentId: string, attached: set<Element>)
    | Purge(attached: set<Element>)

  function NewWorld(clock: int): World {
    World([], map[], map[], clock, 0)
  }

  function LossOf(r: Reference, now: int, attached: set<Element>): Loss {
    if r.expiresAt <= now then Expired else if r.element !in attached then Detached else Evicted
  }

  /** Ids that were in the table and are not in `refs` have been lost. */
  function Relabelled(log: map<string, Use>, refs: seq<Reference>, now: int, attached: set<Element>): map<string, Use> {
    map k | k in log ::
      if log[k].loss == Present && !Has(refs, k) then log[k].(loss := LossOf(log[k].reference, now, attached))
      else log[k]
  }

  function IDFor(w: World, element: Element, newID: string): string {
    if element in w.ids then w.ids[element] else newID
  }

  function Step(w: World, ttl: int, a: Action): World {
    match a
    case Tick(to) => if w.clock <= to then w.(clock := to) else w
    case Create(element, documentId, newID, attached) =>
      if documentId == "" then w
      else
        var id := IDFor(w, element, newID);
        var r := Reference(id, element, documentId, w.clock + ttl);
        var refs := Created(w.refs, r, w.clock, attached);
        w.(refs := refs, ids := if element in w.ids then w.ids else w.ids[element := newID],
           log := Relabelled(w.log, refs, w.clock, attached)[id := Use(r, w.uses, Present)], uses := w.uses + 1)
    case Resolve(id, expected, documentId, attached) =>
      var refs := Resolved(w.refs, id, expected, documentId, w.clock, attached, ttl);
      if ResolvedTo(w.refs, id, expected, documentId, w.clock, attached).Some? then
        w.(refs := refs, log := w.log[id := Use(refs[|refs| - 1], w.uses, Present)], uses := w.uses + 1)
      else if documentId != "" && expected == documentId && id in w.log && w.log[id].loss == Present then
        w.(refs := refs, log := w.log[id := w.log[id].(loss :=
          if w.log[id].reference.documentId != documentId then Misplaced
          else LossOf(w.log[id].reference, w.clock, attached))])
      else w.(refs := refs)
    case Purge(attached) =>
      var refs := Purged(w.refs, w.clock, attached);
      w.(refs := refs, log := Relabelled(w.log, refs, w.clock, attached))
  }

  /** The id generator never repeats itself. */
  predicate Enabled(w: World, a: Action) {
    a.Create? && a.element !in w.ids ==> a.newID !in w.ids.Values && a.newID !in w.log
  }

  function Run(clock: int, ttl: int, actions: seq<Action>): World {
    if actions == [] then NewWorld(clock)
    else Step(Run(clock, ttl, actions[..|actions| - 1]), ttl, actions[|actions| - 1])
  }

  predicate AllEnabled(clock: int, ttl: int, actions: seq<Action>) {
    forall i :: 0 <= i < |actions| ==> Enabled(Run(clock, ttl, actions[..i]), actions[i])
  }

  /** The table is in the order of use, which is the order of expiry, and has just what
      the log has not marked as lost. */
  predicate InOrder(refs: seq<Reference>, log: map<string, Use>) {
    && (forall i :: 0 <= i < |refs| ==>
          refs[i].id in log && log[refs[i].id].loss == Present && log[refs[i].id].reference == refs[i])
    && (forall i, j :: 0 <= i < j < |refs| ==> log[refs[i].id].order < log[refs[j].id].order)
    && (forall i, j :: 0 <= i < j < |refs| ==> refs[i].expiresAt <= refs[j].expiresAt)
  }

  predicate UseOk(w: World, k: string)
    requires k in w.log
  {
    var u := w.log[k];
    && u.reference.id == k && u.order < w.uses
    && (u.loss == Expired ==> u.reference.expiresAt <= w.clock)
    && (u.loss == Present ==> Has(w.refs, k))
    && u.reference.element in w.ids && w.ids[u.reference.element] == k
  }

  ghost predicate Inv(w: World, ttl: int) {
    && |w.refs| <= MAX_REFERENCES && InOrder(w.refs, w.log)
    && (forall i :: 0 <= i < |w.refs| ==> w.refs[i].expiresAt <= w.clock + ttl)
    && (forall k :: k in w.log ==> UseOk(w, k))
    && (forall e, f :: e in w.ids && f in w.ids && w.ids[e] == w.ids[f] ==> e == f)
  }

  lemma OrderIsDistinct(refs: seq<Reference>, log: map<string, Use>)
    requires InOrder(refs, log)
    ensures Distinct(refs)
  {
  }

  /** A subsequence: what filters and shifts leave. */
  ghost predicate Thinned(part: seq<Reference>, refs: seq<Reference>, log: map<string, Use>) {
    && |part| <= |refs| && InOrder(part, log)
    && forall r :: r in part ==> r in refs
  }

  lemma {:induction false} WithoutIsThinner(refs: seq<Reference>, id: string, log: map<string, Use>)
    requires InOrder(refs, log)
    ensures Thinned(Without(refs, id), refs, log) && !Has(Without(refs, id), id)
    ensures forall k :: k != id && Has(refs, k) ==> Has(Without(refs, id), k)
    ensures Has(refs, id) ==> |Without(refs, id)| < |refs|
  {
    if refs != [] {
      var init, last := refs[..|refs| - 1], refs[|refs| - 1];
      WithoutIsThinner(init, id, log);
      Extends(refs, Without(init, id), log);
    }
  }

  /** The last reference goes at the end of what is left of the others. */
  lemma Extends(refs: seq<Reference>, part: seq<Reference>, log: map<string, Use>)
    requires refs != [] && InOrder(refs, log) && Thinned(part, refs[..|refs| - 1], log)
    ensures Thinned(part + [refs[|refs| - 1]], refs, log) && Thinned(part, refs, log)
    ensures forall k :: Has(part + [refs[|refs| - 1]], k) <==> Has(part, k) || k == refs[|refs| - 1].id
    ensures forall k :: Has(refs, k) <==> Has(refs[..|refs| - 1], k) || k == refs[|refs| - 1].id
  {
    var init, last := refs[..|refs| - 1], refs[|refs| - 1];
    forall r | r in part
      ensures log[r.id].order < log[last.id].order && r.expiresAt <= last.expiresAt
    {
      var i :| 0 <= i < |init| && init[i] == r;
      assert refs[i] == r;
    }
    forall k
      ensures Has(part + [last], k) <==> Has(part, k) || k == last.id
      ensures Has(refs, k) <==> Has(init, k) || k == last.id
    {
      HasAppend(part, last, k);
      assert init + [last] == refs;
      HasAppend(init, last, k);
    }
  }

  lemma HasAppend(refs: seq<Reference>, r: Reference, k: string)
    ensures Has(refs + [r], k) <==> Has(refs, k) || k == r.id
  {
    if Has(refs, k) {
      var i :| 0 <= i < |refs| && refs[i].id == k;
      assert (refs + [r])[i].id == k;
    }
    assert (refs + [r])[|refs|].id == r.id;
  }

  lemma {:induction false} PurgedIsThinner(refs: seq<Reference>, now: int, attached: set<Element>,
                                           log: map<string, Use>)
    requires InOrder(refs, log)
    ensures Thinned(Purged(refs, now, attached), refs, log)
    ensures forall k :: Has(refs, k) ==>
      k in log && (Has(Purged(refs, now, attached), k) <==> IsLive(log[k].reference, now, attached))
  {
    if refs != [] {
      var init, last := refs[..|refs| - 1], refs[|refs| - 1];
      PurgedIsThinner(init, now, attached, log);
      Extends(refs, Purged(init, now, attached), log);
      OrderIsDistinct(refs, log);
      forall k | Has(Purged(init, now, attached), k)
        ensures k != last.id
      {
        var i :| 0 <= i < |Purged(init, now, attached)| && Purged(init, now, attached)[i].id == k;
        var r := Purged(init, now, attached)[i];
        assert r in init;
        var j :| 0 <= j < |init| && init[j] == r;
        assert refs[j].id != last.id;
      }
    }
  }

  /** At most one reference is evicted from a table that was full: the first, the least
      recently used. */
  lemma ShiftedIsThinner(refs: seq<Reference>, log: map<string, Use>)
    requires InOrder(refs, log) && |refs| <= MAX_REFERENCES
    ensures Thinned(Shifted(refs), refs, log) && |Shifted(refs)| < MAX_REFERENCES
    ensures forall k :: Has(refs, k) && !Has(Shifted(refs), k) ==>
      |refs| == MAX_REFERENCES && k == refs[0].id
  {
    if |refs| == MAX_REFERENCES {
      forall k | Has(refs, k) && k != refs[0].id
        ensures Has(Shifted(refs), k)
      {
        var i :| 0 <= i < |refs| && refs[i].id == k;
        assert Shifted(refs)[i - 1].id == k;
      }
    }
  }

  /** What making room does to a reference that was there: it stays, or it is not live, or
      it is the least recently used of a table full of live ones. */
  lemma RoomIsMadeFairly(refs: seq<Reference>, now: int, attached: set<Element>, log: map<string, Use>, k: string)
    requires InOrder(refs, log) && |refs| <= MAX_REFERENCES && Has(refs, k)
    ensures k in log
    ensures var made := RoomMade(refs, now, attached);
      Has(made, k) || !IsLive(log[k].reference, now, attached) ||
      (|made| == MAX_REFERENCES - 1 &&
       forall i :: 0 <= i < |made| ==> made[i].id in log && log[k].order < log[made[i].id].order)
  {
    PurgedIsThinner(refs, now, attached, log);
    var kept := if MAX_REFERENCES <= |refs| then Purged(refs, now, attached) else refs;
    ShiftedIsThinner(kept, log);
  }

  lemma RoomMadeIsThinner(refs: seq<Reference>, now: int, attached: set<Element>, log: map<string, Use>)
    requires InOrder(refs, log) && |refs| <= MAX_REFERENCES
    ensures Thinned(RoomMade(refs, now, attached), refs, log) && |RoomMade(refs, now, attached)| < MAX_REFERENCES
  {
    PurgedIsThinner(refs, now, attached, log);
    ShiftedIsThinner(if MAX_REFERENCES <= |refs| then Purged(refs, now, attached) else refs, log);
  }

  /** Entries of the log that the table uses may not change. */
  lemma SameOrder(refs: seq<Reference>, log: map<string, Use>, changed: map<string, Use>)
    requires InOrder(refs, log)
    requires forall i :: 0 <= i < |refs| ==> refs[i].id in changed && changed[refs[i].id] == log[refs[i].id]
    ensures InOrder(refs, changed)
  {
  }

  lemma UsedLast(refs: seq<Reference>, log: map<string, Use>, r: Reference, order: nat)
    requires InOrder(refs, log) && !Has(refs, r.id)
    requires forall k :: k in log ==> log[k].order < order
    requires forall i :: 0 <= i < |refs| ==> refs[i].expiresAt <= r.expiresAt
    ensures InOrder(refs + [r], log[r.id := Use(r, order, Present)])
  {
  }

  lemma LeftInTable(w: World, refs: seq<Reference>, attached: set<Element>, k: string)
    requires k in w.log && UseOk(w, k)
    ensures var log := Relabelled(w.log, refs, w.clock, attached);
      k in log && log[k].reference == w.log[k].reference && log[k].order == w.log[k].order &&
      (log[k].loss == Present <==> w.log[k].loss == Present && Has(refs, k)) &&
      (log[k].loss == Expired ==> log[k].reference.expiresAt <= w.clock)
  {
  }

  /** What is left of the table for a new reference to `id`. */
  lemma MadeFor(w: World, ttl: int, id: string, attached: set<Element>)
    requires Inv(w, ttl)
    ensures var made := RoomMade(Without(w.refs, id), w.clock, attached);
      InOrder(made, w.log) && |made| < MAX_REFERENCES && !Has(made, id) && forall r :: r in made ==> r in w.refs
  {
    var a := Without(w.refs, id);
    WithoutIsThinner(w.refs, id, w.log);
    RoomMadeIsThinner(a, w.clock, attached, w.log);
    hide Without, RoomMade;
    var made := RoomMade(a, w.clock, attached);
    forall i | 0 <= i < |made|
      ensures made[i].id != id
    {
      assert made[i] in a;
    }
  }

  lemma CreatedInOrder(w: World, ttl: int, r: Reference, attached: set<Element>)
    requires Inv(w, ttl) && r.expiresAt == w.clock + ttl
    ensures var refs := Created(w.refs, r, w.clock, attached);
      && InOrder(refs, Relabelled(w.log, refs, w.clock, attached)[r.id := Use(r, w.uses, Present)])
      && |refs| <= MAX_REFERENCES && Has(refs, r.id)
      && forall i :: 0 <= i < |refs| ==> refs[i].expiresAt <= w.clock + ttl
  {
    MadeFor(w, ttl, r.id, attached);
    var made := RoomMade(Without(w.refs, r.id), w.clock, attached);
    var log := Relabelled(w.log, made + [r], w.clock, attached);
    hide Without, RoomMade;
    forall i | 0 <= i < |made|
      ensures made[i].id in log && log[made[i].id] == w.log[made[i].id] && made[i].expiresAt <= r.expiresAt
    {
      HasAppend(made, r, made[i].id);
      assert made[i] in w.refs;
    }
    SameOrder(made, w.log, log);
    forall k | k in log
      ensures log[k].order < w.uses
    {
      assert UseOk(w, k);
    }
    UsedLast(made, log, r, w.uses);
    HasAppend(made, r, r.id);
  }

  lemma CreateKeepsInv(w: World, ttl: int, element: Element, documentId: string, newID: string, attached: set<Element>)
    requires Inv(w, ttl) && documentId != "" && Enabled(w, Create(element, documentId, newID, attached))
    ensures Inv(Step(w, ttl, Create(element, documentId, newID, attached)), ttl)
  {
    var x := Step(w, ttl, Create(element, documentId, newID, attached));
    var id := IDFor(w, element, newID);
    CreatedInOrder(w, ttl, Reference(id, element, documentId, w.clock + ttl), attached);
    hide Created, InOrder;
    forall k | k in x.log
      ensures UseOk(x, k)
    {
      if k != id {
        assert UseOk(w, k);
        LeftInTable(w, x.refs, attached, k);
      }
    }
  }

  lemma PurgeKeepsInv(w: World, ttl: int, attached: set<Element>)
    requires Inv(w, ttl)
    ensures Inv(Step(w, ttl, Purge(attached)), ttl)
  {
    var x := Step(w, ttl, Purge(attached));
    PurgedIsThinner(w.refs, w.clock, attached, w.log);
    hide Purged;
    forall i | 0 <= i < |x.refs|
      ensures x.log[x.refs[i].id] == w.log[x.refs[i].id] && x.refs[i].expiresAt <= w.clock + ttl
    {
      assert x.refs[i] in w.refs && Has(x.refs, x.refs[i].id);
    }
    SameOrder(x.refs, w.log, x.log);
    forall k | k in x.log
      ensures UseOk(x, k)
    {
      assert UseOk(w, k);
      LeftInTable(w, x.refs, attached, k);
    }
  }

  /** The table's entry for an id is the one of its latest use. */
  lemma StoredIsLatest(w: World, ttl: int, id: string)
    requires Inv(w, ttl)
    ensures Stored(w.refs, id) ==
      if id in w.log && w.log[id].loss == Present then Some(w.log[id].reference) else None
  {
    OrderIsDistinct(w.refs, w.log);
    StoredIsTheOne(w.refs, id);
    assert id in w.log ==> UseOk(w, id);
  }

  lemma WithoutInOrder(w: World, ttl: int, id: string)
    requires Inv(w, ttl)
    ensures var rest := Without(w.refs, id);
      && InOrder(rest, w.log) && |rest| <= |w.refs| && !Has(rest, id)
      && (Has(w.refs, id) ==> |rest| < |w.refs|)
      && (forall k :: k != id && Has(w.refs, k) ==> Has(rest, k))
      && forall i :: 0 <= i < |rest| ==> rest[i].id != id && rest[i].expiresAt <= w.clock + ttl
  {
    var rest := Without(w.refs, id);
    WithoutIsThinner(w.refs, id, w.log);
    hide Without;
    forall i | 0 <= i < |rest|
      ensures rest[i].id != id && rest[i].expiresAt <= w.clock + ttl
    {
      assert rest[i] in w.refs && Has(rest, rest[i].id);
    }
  }

  lemma ReuseKeepsInv(w: World, ttl: int, id: string)
    requires Inv(w, ttl) && id in w.log && w.log[id].loss == Present
    ensures var r := w.log[id].reference.(expiresAt := w.clock + ttl);
      Inv(w.(refs := Without(w.refs, id) + [r], log := w.log[id := Use(r, w.uses, Present)], uses := w.uses + 1), ttl)
  {
    var r := w.log[id].reference.(expiresAt := w.clock + ttl);
    var rest := Without(w.refs, id);
    var x := w.(refs := rest + [r], log := w.log[id := Use(r, w.uses, Present)], uses := w.uses + 1);
    WithoutInOrder(w, ttl, id);
    assert UseOk(w, id);
    forall k | k in w.log
      ensures w.log[k].order < w.uses
    {
      assert UseOk(w, k);
    }
    hide Without;
    UsedLast(rest, w.log, r, w.uses);
    hide InOrder;
    forall k | k in x.log
      ensures UseOk(x, k)
    {
      assert UseOk(w, k);
      HasAppend(rest, r, k);
    }
  }

  lemma LostInOrder(w: World, ttl: int, id: string, loss: Loss)
    requires Inv(w, ttl) && id in w.log
    ensures InOrder(Without(w.refs, id), w.log[id := w.log[id].(loss := loss)])
  {
    WithoutInOrder(w, ttl, id);
    hide Without, Inv;
    SameOrder(Without(w.refs, id), w.log, w.log[id := w.log[id].(loss := loss)]);
  }

  lemma LoseKeepsInv(w: World, ttl: int, id: string, loss: Loss)
    requires Inv(w, ttl) && id in w.log && loss != Present
    requires loss == Expired ==> w.log[id].reference.expiresAt <= w.clock
    ensures Inv(w.(refs := Without(w.refs, id), log := w.log[id := w.log[id].(loss := loss)]), ttl)
  {
    var x := w.(refs := Without(w.refs, id), log := w.log[id := w.log[id].(loss := loss)]);
    hide Without, InOrder, Has;
    LostInOrder(w, ttl, id, loss);
    WithoutInOrder(w, ttl, id);
    forall k | k in x.log
      ensures UseOk(x, k)
    {
      assert UseOk(w, k);
      StillUsed(w, id, loss, k);
    }
  }

  lemma StillUsed(w: World, id: string, loss: Loss, k: string)
    requires id in w.log && k in w.log && UseOk(w, k) && loss != Present
    requires loss == Expired ==> w.log[id].reference.expiresAt <= w.clock
    requires k != id && Has(w.refs, k) ==> Has(Without(w.refs, id), k)
    ensures UseOk(w.(refs := Without(w.refs, id), log := w.log[id := w.log[id].(loss := loss)]), k)
  {
    hide Without, Has;
  }

  lemma MissKeepsInv(w: World, ttl: int, id: string)
    requires Inv(w, ttl) && (id in w.log ==> w.log[id].loss != Present)
    ensures Inv(w.(refs := Without(w.refs, id)), ttl)
  {
    WithoutInOrder(w, ttl, id);
    hide Without, InOrder;
    forall k | k in w.log
      ensures UseOk(w.(refs := Without(w.refs, id)), k)
    {
      assert UseOk(w, k);
    }
  }

  lemma ResolveKeepsInv(w: World, ttl: int, id: string, expected: string, documentId: string, attached: set<Element>)
    requires Inv(w, ttl) && documentId != "" && expected == documentId
    ensures Inv(Step(w, ttl, Resolve(id, expected, documentId, attached)), ttl)
  {
    StoredIsLatest(w, ttl, id);
    if Resolvable(w.refs, id, documentId, w.clock, attached) {
      ReuseKeepsInv(w, ttl, id);
    } else if id in w.log && w.log[id].loss == Present {
      LoseKeepsInv(w, ttl, id,
        if w.log[id].reference.documentId != documentId then Misplaced
        else LossOf(w.log[id].reference, w.clock, attached));
    } else {
      MissKeepsInv(w, ttl, id);
    }
  }

  lemma StepKeepsInv(w: World, ttl: int, a: Action)
    requires Inv(w, ttl) && Enabled(w, a)
    ensures Inv(Step(w, ttl, a), ttl)
  {
    match a
    case Tick(to) =>
      forall k | k in w.log
        ensures UseOk(Step(w, ttl, a), k)
      {
        assert UseOk(w, k);
      }
    case Create(element, documentId, newID, attached) =>
      if documentId != "" { CreateKeepsInv(w, ttl, element, documentId, newID, attached); }
    case Resolve(id, expected, documentId, attached) =>
      if documentId != "" && expected == documentId { ResolveKeepsInv(w, ttl, id, expected, documentId, attached); }
    case Purge(attached) => PurgeKeepsInv(w, ttl, attached);
  }

  lemma {:induction false} EveryRunKeepsInv(clock: int, ttl: int, actions: seq<Action>)
    requires AllEnabled(clock, ttl, actions)
    ensures Inv(Run(clock, ttl, actions), ttl)
  {
    if actions != [] {
      var before := actions[..|actions| - 1];
      forall i | 0 <= i < |before|
        ensures Enabled(Run(clock, ttl, before[..i]), before[i])
      {
        assert before[..i] == actions[..i];
      }
      EveryRunKeepsInv(clock, ttl, before);
      StepKeepsInv(Run(clock, ttl, before), ttl, actions[|actions| - 1]);
    }
  }

  // ---------------------------------------------------------------------
  // What the table promises
  // ---------------------------------------------------------------------

  /** Bounded, in the order of expiry and of use. */
  lemma TableIsOrdered(clock: int, ttl: int, actions: seq<Action>)
    requires AllEnabled(clock, ttl, actions)
    ensures var w := Run(clock, ttl, actions);
      && |w.refs| <= MAX_REFERENCES && Distinct(w.refs)
      && (forall i, j :: 0 <= i < j < |w.refs| ==> w.refs[i].expiresAt <= w.refs[j].expiresAt)
      && (forall i :: 0 <= i < |w.refs| ==> w.refs[i].id in w.log)
      && (forall i, j :: 0 <= i < j < |w.refs| ==> w.log[w.refs[i].id].order < w.log[w.refs[j].id].order)
  {
    EveryRunKeepsInv(clock, ttl, actions);
    OrderIsDistinct(Run(clock, ttl, actions).refs, Run(clock, ttl, actions).log);
  }

  /** Resolution succeeds exactly for a reference of this document that is unexpired,
      attached, and was not, since it was last used, evicted, found detached, or asked for
      in another document; and it yields the element the id was made for. */
  lemma ResolvesIff(clock: int, ttl: int, actions: seq<Action>, id: string, expected: string, documentId: string,
                    attached: set<Element>)
    requires AllEnabled(clock, ttl, actions)
    ensures var w := Run(clock, ttl, actions);
      var found := ResolvedTo(w.refs, id, expected, documentId, w.clock, attached);
      && (found.Some? <==>
            documentId != "" && expected == documentId && id in w.log &&
            w.log[id].loss !in {Evicted, Detached, Misplaced} && w.log[id].reference.documentId == documentId &&
            w.clock < w.log[id].reference.expiresAt && w.log[id].reference.element in attached)
      && (found.Some? ==> found.value in w.ids && w.ids[found.value] == id)
  {
    var w := Run(clock, ttl, actions);
    EveryRunKeepsInv(clock, ttl, actions);
    StoredIsLatest(w, ttl, id);
    assert id in w.log ==> UseOk(w, id);
  }

  lemma EvictedIsLeastRecent(w: World, ttl: int, r: Reference, attached: set<Element>, k: string)
    requires Inv(w, ttl) && k in w.log && w.log[k].loss == Present && k != r.id
    requires IsLive(w.log[k].reference, w.clock, attached) && !Has(Created(w.refs, r, w.clock, attached), k)
    ensures LeastRecent(w, Created(w.refs, r, w.clock, attached), k)
  {
    assert UseOk(w, k);
    WithoutIsThinner(w.refs, r.id, w.log);
    RoomIsMadeFairly(Without(w.refs, r.id), w.clock, attached, w.log, k);
    hide Without, RoomMade;
    HasAppend(RoomMade(Without(w.refs, r.id), w.clock, attached), r, k);
  }

  /** A full table of live references, all of them but the last used later than `k`. */
  predicate LeastRecent(w: World, refs: seq<Reference>, k: string) {
    && k in w.log && |refs| == MAX_REFERENCES
    && forall i :: 0 <= i < |refs| - 1 ==> refs[i].id in w.log && w.log[k].order < w.log[refs[i].id].order
  }

  predicate Evicts(w: World, x: World, k: string) {
    k in w.log && w.log[k].loss == Present && k in x.log && x.log[k].loss == Evicted
  }

  /** Only a creation evicts, and then only from a full table: a live reference that was
      created or resolved less recently than all that stay. */
  lemma EvictionIsLeastRecentlyUsed(clock: int, ttl: int, actions: seq<Action>, a: Action, k: string)
    requires AllEnabled(clock, ttl, actions) && Enabled(Run(clock, ttl, actions), a)
    requires Evicts(Run(clock, ttl, actions), Step(Run(clock, ttl, actions), ttl, a), k)
    ensures a.Create?
    ensures LeastRecent(Run(clock, ttl, actions), Step(Run(clock, ttl, actions), ttl, a).refs, k)
    ensures IsLive(Run(clock, ttl, actions).log[k].reference, Run(clock, ttl, actions).clock, a.attached)
  {
    EveryRunKeepsInv(clock, ttl, actions);
    hide Run;
    OnlyCreateEvicts(Run(clock, ttl, actions), ttl, a, k);
    StepEvictsLeastRecent(Run(clock, ttl, actions), ttl, a, k);
  }

  /** What is resolved in vain or purged has expired, is detached, or is of another
      document. */
  lemma OnlyCreateEvicts(w: World, ttl: int, a: Action, k: string)
    requires Inv(w, ttl) && Evicts(w, Step(w, ttl, a), k)
    ensures a.Create?
  {
    hide Created, Without, Purged;
    match a
    case Resolve(id, _, _, _) => StoredIsLatest(w, ttl, id);
    case Purge(attached) =>
      assert UseOk(w, k);
      PurgedIsThinner(w.refs, w.clock, attached, w.log);
    case _ =>
  }

  lemma StepEvictsLeastRecent(w: World, ttl: int, a: Action, k: string)
    requires Inv(w, ttl) && a.Create? && Evicts(w, Step(w, ttl, a), k)
    ensures LeastRecent(w, Step(w, ttl, a).refs, k) && IsLive(w.log[k].reference, w.clock, a.attached)
  {
    hide Created, Inv;
    var id := IDFor(w, a.element, a.newID);
    EvictedIsLeastRecent(w, ttl, Reference(id, a.element, a.documentId, w.clock + ttl), a.attached, k);
  }

  // ---------------------------------------------------------------------
  // How long a reference can be resolved
  // ---------------------------------------------------------------------

  /** Action `a` creates the reference `id` to `element` in document `doc`, or resolves it. */
  predicate IsUse(w: World, a: Action, id: string, element: Element, doc: string) {
    match a
    case Create(e, d, newID, _) =>
      doc != "" && e == element && d == doc && id == if element in w.ids then w.ids[element] else newID
    case Resolve(x, expected, d, attached) =>
      doc != "" && x == id && expected == d == doc &&
      ResolvedTo(w.refs, id, doc, doc, w.clock, attached) == Some(element)
    case _ => false
  }

  /** Action `a` does not use the reference `id`, and does not find its element detached. */
  predicate LeavesAlone(a: Action, id: string, element: Element) {
    match a
    case Tick(_) => true
    case Create(e, _, _, attached) => e != element && element in attached
    case Resolve(x, expected, d, _) => x != id || d == "" || expected != d
    case Purge(attached) => element in attached
  }

  predicate AllLeaveAlone(actions: seq<Action>, id: string, element: Element) {
    forall i :: 0 <= i < |actions| ==> LeavesAlone(actions[i], id, element)
  }

  /** How many of the actions create or resolve a reference. */
  function Uses(actions: seq<Action>): nat {
    if actions == [] then 0
    else
      var last := actions[|actions| - 1];
      Uses(actions[..|actions| - 1]) + if last.Create? || last.Resolve? then 1 else 0
  }

  /** The latest use of `id` was of reference `r`, with at most `n` other uses since, and
      nothing but its age has removed it. */
  ghost predicate Fresh(w: World, id: string, r: Reference, n: nat) {
    && id in w.log && w.log[id].reference == r && w.uses <= w.log[id].order + 1 + n
    && (w.log[id].loss == Present || (w.log[id].loss == Expired && r.expiresAt <= w.clock))
  }

  lemma UseIsFresh(w: World, ttl: int, a: Action, id: string, element: Element, doc: string)
    requires Inv(w, ttl) && IsUse(w, a, id, element, doc)
    ensures Fresh(Step(w, ttl, a), id, Reference(id, element, doc, w.clock + ttl), 0)
  {
    hide Created, Relabelled, Without, InOrder;
    if a.Resolve? {
      StoredIsLatest(w, ttl, id);
      assert UseOk(w, id);
    }
  }

  lemma {:induction false} OrdersGrow(refs: seq<Reference>, log: map<string, Use>, base: nat, i: nat)
    requires InOrder(refs, log) && i < |refs|
    requires forall j :: 0 <= j <= i ==> refs[j].id in log && base < log[refs[j].id].order
    ensures base + 1 + i <= log[refs[i].id].order
  {
    if 0 < i { OrdersGrow(refs, log, base, i - 1); }
  }

  /** A full table of references that were used later takes that many uses. */
  lemma EvictionTakesUses(w: World, ttl: int, r: Reference, attached: set<Element>, k: string)
    requires Inv(w, ttl) && LeastRecent(w, Created(w.refs, r, w.clock, attached), k)
    ensures w.log[k].order + MAX_REFERENCES <= w.uses
  {
    MadeFor(w, ttl, r.id, attached);
    hide Without, RoomMade;
    var made := RoomMade(Without(w.refs, r.id), w.clock, attached);
    var refs := made + [r];
    assert forall i :: 0 <= i < |made| ==> made[i] == refs[i];
    OrdersGrow(made, w.log, w.log[k].order, |made| - 1);
    assert made[|made| - 1].id in w.log && UseOk(w, made[|made| - 1].id);
  }

  lemma OtherIDs(w: World, ttl: int, a: Action, id: string)
    requires Inv(w, ttl) && a.Create? && Enabled(w, a) && id in w.log && a.element != w.log[id].reference.element
    ensures IDFor(w, a.element, a.newID) != id
  {
    assert UseOk(w, id);
  }

  lemma CreateLeavesFresh(w: World, ttl: int, a: Action, id: string, r: Reference, n: nat)
    requires Inv(w, ttl) && a.Create? && a.documentId != "" && Enabled(w, a) && Fresh(w, id, r, n)
    requires LeavesAlone(a, id, r.element) && n < MAX_REFERENCES - 1
    ensures Fresh(Step(w, ttl, a), id, r, n + 1)
  {
    var other := IDFor(w, a.element, a.newID);
    var refs := Created(w.refs, Reference(other, a.element, a.documentId, w.clock + ttl), w.clock, a.attached);
    OtherIDs(w, ttl, a, id);
    var made := Reference(other, a.element, a.documentId, w.clock + ttl);
    if w.log[id].loss == Present && w.clock < r.expiresAt && !Has(refs, id) {
      EvictedIsLeastRecent(w, ttl, made, a.attached, id);
      EvictionTakesUses(w, ttl, made, a.attached, id);
    }
    hide Created, Inv;
  }

  lemma OthersLeaveFresh(w: World, ttl: int, a: Action, id: string, r: Reference, n: nat)
    requires Inv(w, ttl) && !a.Create? && Fresh(w, id, r, n) && LeavesAlone(a, id, r.element)
    ensures Fresh(Step(w, ttl, a), id, r, if a.Resolve? then n + 1 else n)
  {
    hide Created, Without, InOrder;
    match a
    case Purge(attached) =>
      assert UseOk(w, id);
      if w.log[id].loss == Present { PurgeLeavesLive(w, ttl, attached, id); }
    case _ =>
  }

  lemma PurgeLeavesLive(w: World, ttl: int, attached: set<Element>, id: string)
    requires Inv(w, ttl) && Has(w.refs, id)
    ensures id in w.log
    ensures Has(Purged(w.refs, w.clock, attached), id) <==> IsLive(w.log[id].reference, w.clock, attached)
  {
    PurgedIsThinner(w.refs, w.clock, attached, w.log);
  }

  lemma RunStep(clock: int, ttl: int, actions: seq<Action>, a: Action)
    requires AllEnabled(clock, ttl, actions + [a])
    ensures AllEnabled(clock, ttl, actions) && Enabled(Run(clock, ttl, actions), a)
    ensures Run(clock, ttl, actions + [a]) == Step(Run(clock, ttl, actions), ttl, a)
  {
    var all := actions + [a];
    assert all[..|actions|] == actions && all[|actions|] == a;
    forall i | 0 <= i < |actions|
      ensures Enabled(Run(clock, ttl, actions[..i]), actions[i])
    {
      assert all[..i] == actions[..i] && all[i] == actions[i];
    }
  }

  lemma {:induction false} StaysFresh(clock: int, ttl: int, actions: seq<Action>, use: Action, more: seq<Action>,
                                      id: string, element: Element, doc: string)
    requires AllEnabled(clock, ttl, actions + [use] + more) && IsUse(Run(clock, ttl, actions), use, id, element, doc)
    requires AllLeaveAlone(more, id, element) && Uses(more) < MAX_REFERENCES
    ensures var r := Reference(id, element, doc, Run(clock, ttl, actions).clock + ttl);
      Inv(Run(clock, ttl, actions + [use] + more), ttl) &&
      Fresh(Run(clock, ttl, actions + [use] + more), id, r, Uses(more))
  {
    hide *;
    var all := actions + [use] + more;
    EveryRunKeepsInv(clock, ttl, all);
    UsesAdd(more, id, element);
    if more == [] {
      assert all == actions + [use];
      RunStep(clock, ttl, actions, use);
      EveryRunKeepsInv(clock, ttl, actions);
      UseIsFresh(Run(clock, ttl, actions), ttl, use, id, element, doc);
    } else {
      var init, a := more[..|more| - 1], more[|more| - 1];
      assert all == actions + [use] + init + [a];
      RunStep(clock, ttl, actions + [use] + init, a);
      StaysFresh(clock, ttl, actions, use, init, id, element, doc);
      LeavesFresh(Run(clock, ttl, actions + [use] + init), ttl, a, id,
                  Reference(id, element, doc, Run(clock, ttl, actions).clock + ttl), Uses(init));
    }
  }

  lemma UsesAdd(more: seq<Action>, id: string, element: Element)
    requires AllLeaveAlone(more, id, element)
    ensures more == [] ==> Uses(more) == 0
    ensures more != [] ==>
      var init, a := more[..|more| - 1], more[|more| - 1];
      && AllLeaveAlone(init, id, element) && LeavesAlone(a, id, element)
      && Uses(more) == if a.Create? || a.Resolve? then Uses(init) + 1 else Uses(init)
  {
  }

  lemma LeavesFresh(w: World, ttl: int, a: Action, id: string, r: Reference, n: nat)
    requires Inv(w, ttl) && Enabled(w, a) && Fresh(w, id, r, n) && LeavesAlone(a, id, r.element)
    requires a.Create? ==> n < MAX_REFERENCES - 1
    ensures Fresh(Step(w, ttl, a), id, r, if a.Create? || a.Resolve? then n + 1 else n)
  {
    if !a.Create? {
      OthersLeaveFresh(w, ttl, a, id, r, n);
    } else if a.documentId != "" {
      CreateLeavesFresh(w, ttl, a, id, r, n);
    }
  }

  /** A reference that was created or resolved in document `doc` can be resolved, in that
      document and only there, for exactly one time to live, as long as its element is
      attached and fewer than 5,000 other creations and resolutions came in between. */
  lemma ResolvesForItsTime(clock: int, ttl: int, actions: seq<Action>, use: Action, more: seq<Action>, id: string,
                           element: Element, doc: string, expected: string, documentId: string,
                           attached: set<Element>)
    requires AllEnabled(clock, ttl, actions + [use] + more) && IsUse(Run(clock, ttl, actions), use, id, element, doc)
    requires AllLeaveAlone(more, id, element) && Uses(more) < 5_000
    ensures var w := Run(clock, ttl, actions + [use] + more);
      ResolvedTo(w.refs, id, expected, documentId, w.clock, attached) ==
        if expected == documentId == doc && w.clock < Run(clock, ttl, actions).clock + ttl && element in attached
        then Some(element) else None
  {
    var w := Run(clock, ttl, actions + [use] + more);
    StaysFresh(clock, ttl, actions, use, more, id, element, doc);
    StoredIsLatest(w, ttl, id);
    hide Run, Inv, AllEnabled, Stored;
  }
}
