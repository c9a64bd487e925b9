/** Local order books: snapshots, sequenced deltas, invalidation on a gap. */
module L2Books {
  import opened Base

  datatype BookSide = Bid | Ask

  datatype Level = Level(price: int, qty: int)

  /** A size at a price; size 0 deletes the level. */
  datatype Change = Change(side: BookSide, price: int, qty: int)

  datatype BookSnapshot = BookSnapshot(instrument: nat, seqNo: nat, bids: seq<Level>, asks: seq<Level>)

  datatype BookDelta = BookDelta(instrument: nat, seqNo: Option<nat>, changes: seq<Change>)

  datatype BookStatus = Empty | Healthy | Invalidated

  datatype L2Book = L2Book(instrument: nat, status: BookStatus, seqNo: nat, bids: map<int, int>, asks: map<int, int>)

  datatype BookError = InvalidSequence | InvalidQuantity

  datatype Outcome = Applied | Duplicate | IgnoredInvalidated | GapInvalidated(expected: nat, got: nat)

  type Books = map<nat, L2Book>

  function NewBook(instrument: nat): L2Book { L2Book(instrument, Empty, 0, map[], map[]) }

  function BookAt(books: Books, instrument: nat): L2Book {
    if instrument in books then books[instrument] else NewBook(instrument)
  }

  function SatSucc(n: nat): nat { if n >= U64_MAX then U64_MAX else n + 1 }

  function WithLevel(side: map<int, int>, price: int, qty: int): map<int, int> {
    if qty == 0 then side - {price} else side[price := qty]
  }

  function SetLevel(b: L2Book, c: Change): L2Book {
    match c.side
    case Bid => b.(bids := WithLevel(b.bids, c.price, c.qty))
    case Ask => b.(asks := WithLevel(b.asks, c.price, c.qty))
  }

  function SetLevels(b: L2Book, changes: seq<Change>): L2Book {
    if changes == [] then b else SetLevel(SetLevels(b, changes[..|changes| - 1]), changes[|changes| - 1])
  }

  function Writes(side: BookSide, levels: seq<Level>): seq<Change> {
    if levels == [] then []
    else Writes(side, levels[..|levels| - 1]) + [Change(side, levels[|levels| - 1].price, levels[|levels| - 1].qty)]
  }

  function SnapshotWrites(s: BookSnapshot): seq<Change> { Writes(Bid, s.bids) + Writes(Ask, s.asks) }

  function Cleared(b: L2Book): L2Book { b.(bids := map[], asks := map[]) }

  function Invalidate(b: L2Book): L2Book { Cleared(b).(status := Invalidated) }

  function Replace(b: L2Book, s: BookSnapshot): L2Book {
    SetLevels(Cleared(b), SnapshotWrites(s)).(seqNo := s.seqNo, status := Healthy)
  }

  predicate LevelsOk(levels: seq<Level>) { forall i :: 0 <= i < |levels| ==> levels[i].qty >= 0 }

  predicate ChangesOk(changes: seq<Change>) { forall i :: 0 <= i < |changes| ==> changes[i].qty >= 0 }

  function ApplySnapshot(books: Books, s: BookSnapshot): (Books, Result<Outcome, BookError>) {
    if s.seqNo == 0 then (books, Err(InvalidSequence))
    else if !LevelsOk(s.bids) || !LevelsOk(s.asks) then (books, Err(InvalidQuantity))
    else (books[s.instrument := Replace(BookAt(books, s.instrument), s)], Ok(Applied))
  }

  function ApplyDelta(books: Books, d: BookDelta): (Books, Result<Outcome, BookError>) {
    if !ChangesOk(d.changes) then (books, Err(InvalidQuantity))
    else
      var b := BookAt(books, d.instrument);
      var entered := books[d.instrument := b];
      if !b.status.Healthy? then (entered, Ok(IgnoredInvalidated))
      else if d.seqNo.None? then (books[d.instrument := SetLevels(b, d.changes)], Ok(Applied))
      else if d.seqNo.value == 0 then (entered, Err(InvalidSequence))
      else if d.seqNo.value < SatSucc(b.seqNo) then (entered, Ok(Duplicate))
      else if d.seqNo.value > SatSucc(b.seqNo) then
        (books[d.instrument := Invalidate(b)], Ok(GapInvalidated(SatSucc(b.seqNo), d.seqNo.value)))
      else (books[d.instrument := SetLevels(b.(seqNo := d.seqNo.value), d.changes)], Ok(Applied))
  }

  datatype Event = SnapshotEvent(snapshot: BookSnapshot) | DeltaEvent(delta: BookDelta) | InvalidateEvent(instrument: nat)

  function Apply(books: Books, e: Event): (Books, Result<Outcome, BookError>) {
    match e
    case SnapshotEvent(s) => ApplySnapshot(books, s)
    case DeltaEvent(d) => ApplyDelta(books, d)
    case InvalidateEvent(i) => (books[i := Invalidate(BookAt(books, i))], Ok(Applied))
  }

  function Run(books: Books, events: seq<Event>): Books {
    if events == [] then books else Apply(Run(books, events[..|events| - 1]), events[|events| - 1]).0
  }

  // ----- a book depends only on its last accepted snapshot

  predicate AcceptedSnapshot(e: Event, instrument: nat) {
    && e.SnapshotEvent? && e.snapshot.instrument == instrument
    && e.snapshot.seqNo != 0 && LevelsOk(e.snapshot.bids) && LevelsOk(e.snapshot.asks)
  }

  ghost predicate SameBook(a: Books, b: Books, instrument: nat) {
    instrument in a && instrument in b && a[instrument] == b[instrument]
  }

  lemma {:induction false} SetLevelsKeeps(b: L2Book, changes: seq<Change>)
    ensures var n := SetLevels(b, changes); n.instrument == b.instrument && n.status == b.status && n.seqNo == b.seqNo
  {
    if changes != [] { SetLevelsKeeps(b, changes[..|changes| - 1]); }
  }

  lemma {:induction false} SetLevelsFromSame(a: L2Book, b: L2Book, changes: seq<Change>)
    requires a.bids == b.bids && a.asks == b.asks
    ensures SetLevels(a, changes).bids == SetLevels(b, changes).bids && SetLevels(a, changes).asks == SetLevels(b, changes).asks
  {
    if changes != [] { SetLevelsFromSame(a, b, changes[..|changes| - 1]); }
  }

  lemma SnapshotForgets(a: L2Book, b: L2Book, s: BookSnapshot)
    requires a.instrument == b.instrument
    ensures Replace(a, s) == Replace(b, s)
  {
    SetLevelsFromSame(Cleared(a), Cleared(b), SnapshotWrites(s));
    SetLevelsKeeps(Cleared(a), SnapshotWrites(s));
    SetLevelsKeeps(Cleared(b), SnapshotWrites(s));
  }

  lemma EventOnSameBook(a: Books, b: Books, e: Event, instrument: nat)
    requires SameBook(a, b, instrument)
    ensures SameBook(Apply(a, e).0, Apply(b, e).0, instrument)
  {
  }

  ghost predicate OwnIds(books: Books) { forall i :: i in books ==> books[i].instrument == i }

  lemma EventKeepsIds(books: Books, e: Event)
    requires OwnIds(books)
    ensures OwnIds(Apply(books, e).0)
  {
    match e
    case SnapshotEvent(s) => SetLevelsKeeps(Cleared(BookAt(books, s.instrument)), SnapshotWrites(s));
    case DeltaEvent(d) =>
      var b := BookAt(books, d.instrument);
      SetLevelsKeeps(b, d.changes);
      SetLevelsKeeps(b.(seqNo := d.seqNo.GetOr(0)), d.changes);
    case InvalidateEvent(_) =>
  }

  lemma {:induction false} RunKeepsIds(books: Books, events: seq<Event>)
    requires OwnIds(books)
    ensures OwnIds(Run(books, events))
  {
    if events != [] {
      RunKeepsIds(books, events[..|events| - 1]);
      EventKeepsIds(Run(books, events[..|events| - 1]), events[|events| - 1]);
    }
  }

  /** Whatever came before an accepted snapshot, the book after it and any further events is the one a
      fresh engine gets from the snapshot and those events. */
  lemma {:induction false} DependsOnLastSnapshot(before: seq<Event>, snapshot: Event, after: seq<Event>, instrument: nat)
    requires AcceptedSnapshot(snapshot, instrument)
    ensures SameBook(Run(map[], before + [snapshot] + after), Run(map[], [snapshot] + after), instrument)
    decreases |after|
  {
    if after == [] {
      var all := before + [snapshot] + after;
      assert all[..|all| - 1] == before && all[|all| - 1] == snapshot;
      var alone := [snapshot] + after;
      assert alone[..|alone| - 1] == [] && alone[|alone| - 1] == snapshot;
      RunKeepsIds(map[], before);
      SnapshotForgets(BookAt(Run(map[], before), instrument), NewBook(instrument), snapshot.snapshot);
    } else {
      var init := after[..|after| - 1];
      DependsOnLastSnapshot(before, snapshot, init, instrument);
      var all, alone := before + [snapshot] + after, [snapshot] + after;
      assert all[..|all| - 1] == before + [snapshot] + init && alone[..|alone| - 1] == [snapshot] + init;
      EventOnSameBook(Run(map[], before + [snapshot] + init), Run(map[], [snapshot] + init), after[|after| - 1], instrument);
    }
  }

  // ----- what is in a book

  /** The last write of a price decides: absent when it deleted, else its size. */
  function LastWrite(writes: seq<Change>, side: BookSide, price: int): Option<int> {
    if writes == [] then None
    else
      var last := writes[|writes| - 1];
      if last.side == side && last.price == price then (if last.qty == 0 then None else Some(last.qty))
      else LastWrite(writes[..|writes| - 1], side, price)
  }

  function SizeAt(b: L2Book, side: BookSide, price: int): Option<int> {
    var levels := if side.Bid? then b.bids else b.asks;
    if price in levels then Some(levels[price]) else None
  }

  /** The writes since the last accepted snapshot, its sequence number, and the sequenced deltas applied since. */
  datatype Trace = Trace(writes: seq<Change>, base: nat, applied: seq<nat>)

  function TraceAfter(t: Trace, books: Books, e: Event, instrument: nat): Trace {
    match e
    case SnapshotEvent(s) => if AcceptedSnapshot(e, instrument) then Trace(SnapshotWrites(s), s.seqNo, []) else t
    case DeltaEvent(d) =>
      if d.instrument == instrument && ApplyDelta(books, d).1 == Ok(Applied)
      then Trace(t.writes + d.changes, t.base, if d.seqNo.Some? then t.applied + [d.seqNo.value] else t.applied) else t
    case InvalidateEvent(_) => t
  }

  function TraceOf(events: seq<Event>, instrument: nat): Trace {
    if events == [] then Trace([], 0, [])
    else TraceAfter(TraceOf(events[..|events| - 1], instrument), Run(map[], events[..|events| - 1]), events[|events| - 1], instrument)
  }

  predicate Positive(side: map<int, int>) { forall p :: p in side ==> side[p] > 0 }

  /** No level unless healthy, no size zero or negative; a healthy book shows the last write at every
      price, and the sequenced deltas it took followed each other from the snapshot on. */
  ghost predicate BookOk(b: L2Book, t: Trace) {
    && (!b.status.Healthy? ==> b.bids == map[] && b.asks == map[])
    && Positive(b.bids) && Positive(b.asks)
    && (b.status.Healthy? ==>
          && (forall side, price :: SizeAt(b, side, price) == LastWrite(t.writes, side, price))
          && 1 <= b.seqNo <= U64_MAX && b.seqNo >= t.base
          && (b.seqNo < U64_MAX ==> b.seqNo == t.base + |t.applied|)
          && (b.seqNo < U64_MAX ==> forall i :: 0 <= i < |t.applied| ==> t.applied[i] == t.base + 1 + i))
  }

  lemma {:induction false} SetLevelsLastWrite(b: L2Book, writes: seq<Change>, changes: seq<Change>)
    requires forall side, price :: SizeAt(b, side, price) == LastWrite(writes, side, price)
    ensures forall side, price :: SizeAt(SetLevels(b, changes), side, price) == LastWrite(writes + changes, side, price)
  {
    if changes == [] {
      assert writes + changes == writes;
    } else {
      var init, c := changes[..|changes| - 1], changes[|changes| - 1];
      SetLevelsLastWrite(b, writes, init);
      assert (writes + changes)[..|writes + changes| - 1] == writes + init;
      var m := SetLevels(b, init);
      forall side, price ensures SizeAt(SetLevel(m, c), side, price) == LastWrite(writes + changes, side, price) {
        assert SizeAt(m, side, price) == LastWrite(writes + init, side, price);
      }
    }
  }

  lemma {:induction false} SetLevelsPositive(b: L2Book, changes: seq<Change>)
    requires Positive(b.bids) && Positive(b.asks) && ChangesOk(changes)
    ensures Positive(SetLevels(b, changes).bids) && Positive(SetLevels(b, changes).asks)
  {
    if changes != [] { SetLevelsPositive(b, changes[..|changes| - 1]); }
  }

  lemma {:induction false} WritesOk(side: BookSide, levels: seq<Level>)
    requires LevelsOk(levels)
    ensures ChangesOk(Writes(side, levels))
  {
    if levels != [] { WritesOk(side, levels[..|levels| - 1]); }
  }

  lemma SnapshotBookOk(b: L2Book, s: BookSnapshot)
    requires 0 < s.seqNo <= U64_MAX && LevelsOk(s.bids) && LevelsOk(s.asks)
    ensures BookOk(Replace(b, s), Trace(SnapshotWrites(s), s.seqNo, []))
  {
    WritesOk(Bid, s.bids);
    WritesOk(Ask, s.asks);
    SetLevelsPositive(Cleared(b), SnapshotWrites(s));
    forall side, price ensures SizeAt(Cleared(b), side, price) == LastWrite([], side, price) {}
    SetLevelsLastWrite(Cleared(b), [], SnapshotWrites(s));
    assert [] + SnapshotWrites(s) == SnapshotWrites(s);
  }

  lemma DeltaBookOk(b: L2Book, t: Trace, d: BookDelta)
    requires BookOk(b, t) && b.status.Healthy? && ChangesOk(d.changes)
    requires d.seqNo.Some? ==> d.seqNo.value == SatSucc(b.seqNo)
    ensures BookOk(SetLevels(if d.seqNo.Some? then b.(seqNo := d.seqNo.value) else b, d.changes),
                   Trace(t.writes + d.changes, t.base, if d.seqNo.Some? then t.applied + [d.seqNo.value] else t.applied))
  {
    var m := if d.seqNo.Some? then b.(seqNo := d.seqNo.value) else b;
    SetLevelsKeeps(m, d.changes);
    SetLevelsPositive(m, d.changes);
    forall side, price ensures SizeAt(m, side, price) == LastWrite(t.writes, side, price) {
      assert SizeAt(b, side, price) == LastWrite(t.writes, side, price);
    }
    SetLevelsLastWrite(m, t.writes, d.changes);
  }

  /** Sequence numbers are 64-bit, as their type is in the source. */
  predicate EventFits(e: Event) { e.SnapshotEvent? ==> e.snapshot.seqNo <= U64_MAX }

  lemma EventBookOk(books: Books, t: Trace, e: Event, instrument: nat)
    requires EventFits(e) && BookOk(BookAt(books, instrument), t)
    ensures BookOk(BookAt(Apply(books, e).0, instrument), TraceAfter(t, books, e, instrument))
  {
    var b := BookAt(books, instrument);
    match e
    case SnapshotEvent(s) => if AcceptedSnapshot(e, instrument) { SnapshotBookOk(b, s); }
    case DeltaEvent(d) => if d.instrument == instrument && ApplyDelta(books, d).1 == Ok(Applied) { DeltaBookOk(b, t, d); }
    case InvalidateEvent(_) =>
  }

  /** In every run every book is sound. */
  lemma {:induction false} EveryBookOk(events: seq<Event>, instrument: nat)
    requires forall i :: 0 <= i < |events| ==> EventFits(events[i])
    ensures BookOk(BookAt(Run(map[], events), instrument), TraceOf(events, instrument))
  {
    if events != [] {
      var init := events[..|events| - 1];
      EveryBookOk(init, instrument);
      EventBookOk(Run(map[], init), TraceOf(init, instrument), events[|events| - 1], instrument);
    }
  }

  /** A sequenced delta that was just applied is refused as a duplicate when it comes again, exactly when
      its number is below the largest one; at the largest number it is applied again. */
  lemma RepeatedDeltaIff(books: Books, d: BookDelta)
    requires d.seqNo.Some? && d.seqNo.value <= U64_MAX && ApplyDelta(books, d).1 == Ok(Applied)
    ensures ApplyDelta(ApplyDelta(books, d).0, d).1 == (if d.seqNo.value < U64_MAX then Ok(Duplicate) else Ok(Applied))
  {
    var b := BookAt(books, d.instrument);
    SetLevelsKeeps(b.(seqNo := d.seqNo.value), d.changes);
  }

  // ----- the engine as it runs

  class BookEngine {
    var books: Books

    constructor ()
      ensures books == map[]
    {
      books := map[];
    }

    /** Opens the instrument's book if there is none. */
    method Entry(instrument: nat) returns (b: L2Book)
      modifies this
      ensures b == BookAt(old(books), instrument) && books == old(books)[instrument := b]
    {
      if instrument !in books { books := books[instrument := NewBook(instrument)]; }
      b := books[instrument];
      assert books == old(books)[instrument := b];
    }

    method WriteLevels(instrument: nat, changes: seq<Change>)
      requires instrument in books
      modifies this
      ensures books == old(books)[instrument := SetLevels(old(books)[instrument], changes)]
    {
      var i := 0;
      while i < |changes|
        invariant 0 <= i <= |changes| && instrument in books
        invariant books == old(books)[instrument := SetLevels(old(books)[instrument], changes[..i])]
      {
        assert changes[..i + 1][..i] == changes[..i];
        books := books[instrument := SetLevel(books[instrument], changes[i])];
        i := i + 1;
      }
      assert changes[..i] == changes;
    }

    method ApplySnapshotEvent(s: BookSnapshot) returns (r: Result<Outcome, BookError>)
      modifies this
      ensures (books, r) == ApplySnapshot(old(books), s)
    {
      if s.seqNo == 0 { return Err(InvalidSequence); }
      if !LevelsOk(s.bids) || !LevelsOk(s.asks) { return Err(InvalidQuantity); }
      var b := Entry(s.instrument);
      books := books[s.instrument := Cleared(b)];
      WriteLevels(s.instrument, SnapshotWrites(s));
      books := books[s.instrument := books[s.instrument].(seqNo := s.seqNo, status := Healthy)];
      assert books == old(books)[s.instrument := Replace(b, s)];
      return Ok(Applied);
    }

    method ApplyDeltaEvent(d: BookDelta) returns (r: Result<Outcome, BookError>)
      modifies this
      ensures (books, r) == ApplyDelta(old(books), d)
    {
      var i := 0;
      while i < |d.changes|
        invariant 0 <= i <= |d.changes| && ChangesOk(d.changes[..i]) && books == old(books)
      {
        if d.changes[i].qty < 0 { return Err(InvalidQuantity); }
        i := i + 1;
      }
      var b := Entry(d.instrument);
      if !b.status.Healthy? { return Ok(IgnoredInvalidated); }
      if d.seqNo.Some? {
        var got := d.seqNo.value;
        if got == 0 { return Err(InvalidSequence); }
        var expected := SatSucc(b.seqNo);
        if got < expected { return Ok(Duplicate); }
        if got > expected {
          books := books[d.instrument := Invalidate(b)];
          assert books == old(books)[d.instrument := Invalidate(b)];
          return Ok(GapInvalidated(expected, got));
        }
        books := books[d.instrument := b.(seqNo := got)];
      }
      ghost var m := books[d.instrument];
      WriteLevels(d.instrument, d.changes);
      assert books == old(books)[d.instrument := SetLevels(m, d.changes)];
      return Ok(Applied);
    }

    method InvalidateBook(instrument: nat)
      modifies this
      ensures books == Apply(old(books), InvalidateEvent(instrument)).0
    {
      var b := Entry(instrument);
      books := books[instrument := Invalidate(b)];
    }
  }
}
