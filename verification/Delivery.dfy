/** The consumer side of the report stream: session cursor, gap recovery and de-duplication. */
module Delivery {
  import opened Base
  import opened Execution
  import opened Sandbox

  datatype Cursor = Cursor(session: Option<nat>, next: nat)

  /** The cursor moved to the report's session, restarting at 1 when the session is new. */
  function Enter(c: Cursor, session: nat): Cursor {
    if c.session != Some(session) then Cursor(Some(session), 1) else c
  }

  /** First occurrences by session and sequence number. */
  function Dedupe(reports: seq<Report>, seen: set<(nat, nat)>): seq<Report> {
    if reports == [] then []
    else
      var key := (reports[0].session, reports[0].seqNo);
      if key in seen then Dedupe(reports[1..], seen)
      else [reports[0]] + Dedupe(reports[1..], seen + {key})
  }

  /** The batch to apply, after asking the venue for what is missing before it. */
  function EnsureContiguous(c: Cursor, v: Venue, reports: seq<Report>): (Cursor, Result<seq<Report>, ExecutionError>) {
    if reports == [] then (c, Ok(reports))
    else
      var c := Enter(c, reports[0].session);
      if reports[0].seqNo > c.next then
        match PollRecovery(v, c.next)
        case Err(e) => (c, Err(e))
        case Ok(recovered) => (c, Ok(Dedupe(recovered + reports, {})))
      else if reports[0].seqNo < c.next then (c, Ok(From(reports, reports[0].session, c.next)))
      else (c, Ok(reports))
  }

  datatype Verdict = Stale | Gap | Offer

  /** What the consumer does with a report at this cursor. */
  function Judge(c: Cursor, r: Report): Verdict {
    var c := Enter(c, r.session);
    if r.seqNo < c.next then Stale else if r.seqNo > c.next then Gap else Offer
  }

  /** The reports of a batch that are offered to the order store when none of them fails, the cursor
      after it, and whether a sequence gap was hit. */
  function Offered(c: Cursor, reports: seq<Report>): (Cursor, seq<Report>, bool)
    decreases |reports|
  {
    if reports == [] then (c, [], false)
    else
      var r, entered := reports[0], Enter(c, reports[0].session);
      match Judge(c, r)
      case Stale => Offered(entered, reports[1..])
      case Gap => (entered, [], true)
      case Offer =>
        var (last, rest, gap) := Offered(Cursor(Some(r.session), r.seqNo + 1), reports[1..]);
        (last, [r] + rest, gap)
  }

  lemma {:induction false} FromNumbered(history: seq<Report>, start: nat, session: nat, seqNo: nat)
    requires forall i :: 0 <= i < |history| ==> history[i].session == session && history[i].seqNo == start + i
    requires start <= seqNo <= start + |history|
    ensures From(history, session, seqNo) == history[seqNo - start..]
    decreases |history|
  {
    if history != [] {
      if seqNo > start {
        FromNumbered(history[1..], start + 1, session, seqNo);
        assert history[1..][seqNo - (start + 1)..] == history[seqNo - start..];
      } else {
        FromAll(history[1..], session, seqNo);
      }
    }
  }

  lemma {:induction false} FromAll(history: seq<Report>, session: nat, seqNo: nat)
    requires forall i :: 0 <= i < |history| ==> history[i].session == session && history[i].seqNo >= seqNo
    ensures From(history, session, seqNo) == history
    decreases |history|
  {
    if history != [] { FromAll(history[1..], session, seqNo); }
  }

  function KeysOf(reports: seq<Report>): set<(nat, nat)> {
    set i | 0 <= i < |reports| :: (reports[i].session, reports[i].seqNo)
  }

  lemma {:induction false} DedupeFresh(reports: seq<Report>, tail: seq<Report>, seen: set<(nat, nat)>)
    requires forall i, j :: 0 <= i < j < |reports| ==> (reports[i].session, reports[i].seqNo) != (reports[j].session, reports[j].seqNo)
    requires forall i :: 0 <= i < |reports| ==> (reports[i].session, reports[i].seqNo) !in seen
    requires forall i :: 0 <= i < |tail| ==> (tail[i].session, tail[i].seqNo) in seen + KeysOf(reports)
    ensures Dedupe(reports + tail, seen) == reports
    decreases |reports|
  {
    if reports == [] {
      assert reports + tail == tail;
      DedupeSeen(tail, seen);
    } else {
      var key := (reports[0].session, reports[0].seqNo);
      var rest := reports[1..];
      assert (reports + tail)[1..] == rest + tail;
      forall i | 0 <= i < |rest| ensures (rest[i].session, rest[i].seqNo) !in seen + {key} { assert rest[i] == reports[i + 1]; }
      forall i | 0 <= i < |tail| ensures (tail[i].session, tail[i].seqNo) in (seen + {key}) + KeysOf(rest) {
        var k := (tail[i].session, tail[i].seqNo);
        if k in KeysOf(reports) {
          var j :| 0 <= j < |reports| && (reports[j].session, reports[j].seqNo) == k;
          if j > 0 { assert rest[j - 1] == reports[j]; }
        }
      }
      DedupeFresh(rest, tail, seen + {key});
    }
  }

  lemma {:induction false} DedupeSeen(reports: seq<Report>, seen: set<(nat, nat)>)
    requires forall i :: 0 <= i < |reports| ==> (reports[i].session, reports[i].seqNo) in seen
    ensures Dedupe(reports, seen) == []
    decreases |reports|
  {
    if reports != [] { DedupeSeen(reports[1..], seen); }
  }

  lemma {:induction false} OfferedNumbered(c: Cursor, reports: seq<Report>, session: nat)
    requires c.session == Some(session)
    requires forall i :: 0 <= i < |reports| ==> reports[i].session == session && reports[i].seqNo == c.next + i
    ensures Offered(c, reports) == (Cursor(Some(session), c.next + |reports|), reports, false)
    decreases |reports|
  {
    if reports != [] {
      var rest := reports[1..];
      forall i | 0 <= i < |rest| ensures rest[i].session == session && rest[i].seqNo == c.next + 1 + i {
        assert rest[i] == reports[i + 1];
      }
      OfferedNumbered(Cursor(Some(session), c.next + 1), rest, session);
      assert [reports[0]] + rest == reports;
    }
  }

  lemma NumberedKeys(v: Venue, n: nat)
    requires Numbered(v) && 1 <= n <= |v.history| + 1
    ensures var recovered := v.history[n - 1..];
      && (forall i :: 0 <= i < |recovered| ==> recovered[i].session == v.session && recovered[i].seqNo == n + i)
      && (forall i, j :: 0 <= i < j < |recovered| ==> (recovered[i].session, recovered[i].seqNo) != (recovered[j].session, recovered[j].seqNo))
  {
    var recovered := v.history[n - 1..];
    forall i | 0 <= i < |recovered| ensures recovered[i].session == v.session && recovered[i].seqNo == n + i {
      assert recovered[i] == v.history[n - 1 + i];
    }
  }

  lemma TailKeys(v: Venue, n: nat, k: nat)
    requires 1 <= n <= k <= |v.history|
    ensures var tail := v.history[k..];
      forall i :: 0 <= i < |tail| ==> (tail[i].session, tail[i].seqNo) in {} + KeysOf(v.history[n - 1..])
  {
    var recovered, tail := v.history[n - 1..], v.history[k..];
    forall i | 0 <= i < |tail| ensures (tail[i].session, tail[i].seqNo) in {} + KeysOf(recovered) {
      assert tail[i] == recovered[k - (n - 1) + i];
    }
  }

  lemma RecoveredOnce(v: Venue, n: nat, k: nat)
    requires Numbered(v) && 1 <= n <= k < |v.history|
    ensures Dedupe(From(v.history, v.session, n) + v.history[k..], {}) == v.history[n - 1..]
  {
    FromNumbered(v.history, 1, v.session, n);
    NumberedKeys(v, n);
    TailKeys(v, n, k);
    DedupeFresh(v.history[n - 1..], v.history[k..], {});
  }

  lemma OverlapSkipped(v: Venue, n: nat, k: nat)
    requires Numbered(v) && k + 1 < n <= |v.history| + 1
    ensures From(v.history[k..], v.session, n) == v.history[n - 1..]
  {
    var tail := v.history[k..];
    forall i | 0 <= i < |tail| ensures tail[i].session == v.session && tail[i].seqNo == k + 1 + i {
      assert tail[i] == v.history[k + i];
    }
    FromNumbered(tail, k + 1, v.session, n);
    assert tail[n - (k + 1)..] == v.history[n - 1..];
  }

  lemma BatchFromCursor(c: Cursor, v: Venue, k: nat, n: nat)
    requires Numbered(v) && k < |v.history| && 1 <= n <= |v.history| + 1
    requires n == if c.session == Some(v.session) then c.next else 1
    ensures EnsureContiguous(c, v, v.history[k..])
            == (Cursor(Some(v.session), n), if v.connected || k + 1 <= n then Ok(v.history[n - 1..]) else Err(Disconnected))
  {
    assert v.history[k..][0] == v.history[k];
    if k + 1 > n {
      RecoveredOnce(v, n, k);
    } else if k + 1 < n {
      OverlapSkipped(v, n, k);
    }
  }

  /** Exactly once and in order: whatever batches were lost before, any nonempty suffix of the
      session's journal that a poll returns makes the consumer offer exactly the reports from its
      cursor to the end of the journal, each once, ending just past it and never at a gap. Only when
      reports before the suffix are missing and the venue is offline is there no batch to offer. */
  lemma DeliversFromCursor(c: Cursor, v: Venue, k: nat)
    requires Numbered(v) && k < |v.history|
    requires c.session == Some(v.session) ==> 1 <= c.next <= |v.history| + 1
    ensures var n := if c.session == Some(v.session) then c.next else 1;
      EnsureContiguous(c, v, v.history[k..])
        == (Cursor(Some(v.session), n), if v.connected || k + 1 <= n then Ok(v.history[n - 1..]) else Err(Disconnected))
    ensures var n := if c.session == Some(v.session) then c.next else 1;
      Offered(Cursor(Some(v.session), n), v.history[n - 1..])
        == (Cursor(Some(v.session), |v.history| + 1), v.history[n - 1..], false)
  {
    var n := if c.session == Some(v.session) then c.next else 1;
    BatchFromCursor(c, v, k, n);
    NumberedKeys(v, n);
    OfferedNumbered(Cursor(Some(v.session), n), v.history[n - 1..], v.session);
  }

  /** The report at i is the first of its session and number. */
  predicate FirstOfKey(reports: seq<Report>, i: nat)
    requires i < |reports|
  {
    forall j :: 0 <= j < i ==> (reports[j].session, reports[j].seqNo) != (reports[i].session, reports[i].seqNo)
  }

  /** The reports at the positions, in order. */
  function Picked(reports: seq<Report>, at: seq<nat>): seq<Report>
    requires forall k :: 0 <= k < |at| ==> at[k] < |reports|
  {
    seq(|at|, k requires 0 <= k < |at| => reports[at[k]])
  }

  /** The positions below n that hold the first report of their session and number, ascending. */
  function FirstPositions(reports: seq<Report>, n: nat): (at: seq<nat>)
    requires n <= |reports|
    ensures forall k :: 0 <= k < |at| ==> at[k] < n
    ensures forall k, l :: 0 <= k < l < |at| ==> at[k] < at[l]
    ensures forall i: nat :: i < n ==> (i in at <==> FirstOfKey(reports, i))
  {
    if n == 0 then [] else FirstPositions(reports, n - 1) + (if FirstOfKey(reports, n - 1) then [n - 1] else [])
  }

  lemma SeenIsNotFirst(reports: seq<Report>, i: nat)
    requires i < |reports|
    ensures FirstOfKey(reports, i) <==> (reports[i].session, reports[i].seqNo) !in KeysOf(reports[..i])
    ensures KeysOf(reports[..i + 1]) == KeysOf(reports[..i]) + {(reports[i].session, reports[i].seqNo)}
  {
    var before, upTo := reports[..i], reports[..i + 1];
    forall j | 0 <= j < i ensures (before[j].session, before[j].seqNo) in KeysOf(before) && upTo[j] == before[j] {}
    assert upTo[i] == reports[i];
  }

  lemma PickedMore(reports: seq<Report>, n: nat)
    requires n < |reports|
    ensures Picked(reports, FirstPositions(reports, n + 1))
            == Picked(reports, FirstPositions(reports, n)) + (if FirstOfKey(reports, n) then [reports[n]] else [])
  {
  }

  lemma DedupeHead(reports: seq<Report>, i: nat, seen: set<(nat, nat)>)
    requires i < |reports|
    ensures var key := (reports[i].session, reports[i].seqNo);
      Dedupe(reports[i..], seen)
        == if key in seen then Dedupe(reports[i + 1..], seen) else [reports[i]] + Dedupe(reports[i + 1..], seen + {key})
  {
    assert reports[i..][0] == reports[i] && reports[i..][1..] == reports[i + 1..];
  }

  lemma DedupeStep(reports: seq<Report>, i: nat)
    requires i < |reports|
    ensures Picked(reports, FirstPositions(reports, i)) + Dedupe(reports[i..], KeysOf(reports[..i]))
            == Picked(reports, FirstPositions(reports, i + 1)) + Dedupe(reports[i + 1..], KeysOf(reports[..i + 1]))
  {
    var seen, before := KeysOf(reports[..i]), Picked(reports, FirstPositions(reports, i));
    var key := (reports[i].session, reports[i].seqNo);
    PickedMore(reports, i);
    SeenIsNotFirst(reports, i);
    DedupeHead(reports, i, seen);
    if key in seen {
      assert seen + {key} == seen;
      NoneMore(before, Dedupe(reports[i + 1..], seen));
    } else {
      OneMore(before, reports[i], Dedupe(reports[i + 1..], seen + {key}));
    }
  }

  lemma NoneMore<T>(a: seq<T>, b: seq<T>)
    ensures a + [] + b == a + b
  {
  }

  lemma OneMore<T>(a: seq<T>, x: T, b: seq<T>)
    ensures a + ([x] + b) == a + [x] + b
  {
  }

  lemma {:induction false} DedupeFrom(reports: seq<Report>, i: nat)
    requires i <= |reports|
    ensures Picked(reports, FirstPositions(reports, i)) + Dedupe(reports[i..], KeysOf(reports[..i]))
            == Picked(reports, FirstPositions(reports, |reports|))
    decreases |reports| - i
  {
    if i < |reports| {
      DedupeStep(reports, i);
      DedupeFrom(reports, i + 1);
    } else {
      assert reports[i..] == [];
    }
  }

  /** De-duplication keeps, in order, exactly the first report of every session and number. */
  lemma DedupeKeepsFirsts(reports: seq<Report>)
    ensures Dedupe(reports, {}) == Picked(reports, FirstPositions(reports, |reports|))
  {
    DedupeFrom(reports, 0);
    assert reports[0..] == reports && KeysOf(reports[..0]) == {} && Picked(reports, FirstPositions(reports, 0)) == [];
  }

  /** The de-duplication loop with its set of seen keys. */
  method DedupeReports(reports: seq<Report>) returns (out: seq<Report>)
    ensures out == Dedupe(reports, {}) == Picked(reports, FirstPositions(reports, |reports|))
  {
    out := [];
    var seen: set<(nat, nat)> := {};
    var i := 0;
    while i < |reports|
      invariant 0 <= i <= |reports| && seen == KeysOf(reports[..i])
      invariant out == Picked(reports, FirstPositions(reports, i))
    {
      var r := reports[i];
      var key := (r.session, r.seqNo);
      SeenIsNotFirst(reports, i);
      PickedMore(reports, i);
      if key !in seen {
        seen := seen + {key};
        out := out + [r];
      }
      i := i + 1;
    }
    DedupeKeepsFirsts(reports);
  }

  predicate Retained(r: Report, session: nat, seqNo: nat) { r.session == session && r.seqNo >= seqNo }

  lemma {:induction false} FromSnoc(reports: seq<Report>, r: Report, session: nat, seqNo: nat)
    ensures From(reports + [r], session, seqNo) == From(reports, session, seqNo) + (if Retained(r, session, seqNo) then [r] else [])
    decreases |reports|
  {
    if reports == [] {
      assert [] + [r] == [r] && [r][1..] == [];
    } else {
      assert (reports + [r])[1..] == reports[1..] + [r] && (reports + [r])[0] == reports[0];
      FromSnoc(reports[1..], r, session, seqNo);
    }
  }

  method RetainFrom(reports: seq<Report>, session: nat, seqNo: nat) returns (out: seq<Report>)
    ensures out == From(reports, session, seqNo)
  {
    out := [];
    var i := 0;
    while i < |reports|
      invariant 0 <= i <= |reports| && out == From(reports[..i], session, seqNo)
    {
      assert reports[..i + 1] == reports[..i] + [reports[i]];
      FromSnoc(reports[..i], reports[i], session, seqNo);
      if Retained(reports[i], session, seqNo) { out := out + [reports[i]]; }
      i := i + 1;
    }
    assert reports[..i] == reports;
  }
}
