/** FIX 4.2 gap recovery: the acceptor's answer to a Resend Request against the receiver's sequence rule. */
module FixSession {
  import opened Base
  import opened Decimals
  import opened FixCodec

  /** A message the acceptor has sent and kept, under its sequence number. */
  type Stored = (nat, string)

  // ----- the receiver

  datatype Receiver = Receiver(expected: nat, accepted: seq<map<string, string>>, resendsAsked: nat)

  datatype ReceiveError = Undecodable | MissingSeqNum | MissingNewSeqNo | NewSeqNoZero

  function SeqOf(m: map<string, string>): Option<nat> { if "34" in m then ParseU64(m["34"]) else None }

  /** The sequence rule: the expected number is taken, an older one is ignored, a newer one asks for a
      resend; a Sequence Reset carries its own number and is always let through. */
  function Accept(r: Receiver, m: map<string, string>, seqNo: nat): (Receiver, bool) {
    if "35" in m && m["35"] == "4" then (r, true)
    else if seqNo == r.expected then (r.(expected := r.expected + 1, accepted := r.accepted + [m]), true)
    else if seqNo < r.expected then (r, false)
    else (r.(resendsAsked := r.resendsAsked + 1), false)
  }

  function ApplySequenceReset(r: Receiver, m: map<string, string>): Result<Receiver, ReceiveError> {
    if "36" !in m || ParseU64(m["36"]).None? then Err(MissingNewSeqNo)
    else if ParseU64(m["36"]).value == 0 then Err(NewSeqNoZero)
    else Ok(r.(expected := ParseU64(m["36"]).value))
  }

  function Receive(r: Receiver, wire: string): Result<Receiver, ReceiveError> {
    match Decode(wire)
    case Err(_) => Err(Undecodable)
    case Ok(m) =>
      match SeqOf(m)
      case None => Err(MissingSeqNum)
      case Some(seqNo) =>
        var (n, passed) := Accept(r, m, seqNo);
        if passed && "35" in m && m["35"] == "4" then ApplySequenceReset(n, m) else Ok(n)
  }

  function ReceiveAll(r: Receiver, wires: seq<string>): Result<Receiver, ReceiveError>
    decreases |wires|
  {
    if wires == [] then Ok(r)
    else match Receive(r, wires[0])
      case Err(e) => Err(e)
      case Ok(n) => ReceiveAll(n, wires[1..])
  }

  // ----- the acceptor's store

  /** The wire kept under a sequence number, the first one if there were several. */
  function Lookup(store: seq<Stored>, seqNo: nat): Option<string> {
    if store == [] then None else if store[0].0 == seqNo then Some(store[0].1) else Lookup(store[1..], seqNo)
  }

  /** A stored wire decodes, carries its own number, and is no Sequence Reset. */
  predicate Sound(s: Stored) {
    && Decode(s.1).Ok? && Resendable(Decode(s.1).value) == Ok(s.0) && Decode(s.1).value["35"] != "4"
  }

  ghost predicate StoreOk(store: seq<Stored>) { forall i :: 0 <= i < |store| ==> Sound(store[i]) }

  lemma {:induction false} LookupSound(store: seq<Stored>, seqNo: nat)
    requires StoreOk(store) && Lookup(store, seqNo).Some?
    ensures Sound((seqNo, Lookup(store, seqNo).value))
    decreases |store|
  {
    if store[0].0 != seqNo { LookupSound(store[1..], seqNo); } else { assert Sound(store[0]); }
  }

  /** The smallest kept number above the cursor, or the bound if it is smaller. */
  function NextKept(store: seq<Stored>, cursor: nat, bound: nat): (n: nat)
    ensures n <= bound && (bound > cursor ==> n > cursor)
  {
    if store == [] then bound
    else
      var n := NextKept(store[1..], cursor, bound);
      if cursor < store[0].0 < n then store[0].0 else n
  }

  lemma {:induction false} NothingBetween(store: seq<Stored>, cursor: nat, bound: nat, s: nat)
    requires cursor < s < NextKept(store, cursor, bound)
    ensures Lookup(store, s).None?
    decreases |store|
  {
    if store != [] { NothingBetween(store[1..], cursor, bound, s); }
  }

  function SatSucc(n: nat): nat { if n >= U64_MAX then U64_MAX else n + 1 }

  /** Where the resend loop's cursor goes next. */
  function NextCursor(store: seq<Stored>, cursor: nat, end: nat): nat {
    if Lookup(store, cursor).Some? then SatSucc(cursor) else NextKept(store, cursor, SatSucc(end))
  }

  /** The cursor moves at every step below the largest sequence number, and not at it: a request whose
      end is that number keeps the loop going for ever, every other request is worked off. */
  lemma CursorMovesIff(store: seq<Stored>, cursor: nat, end: nat)
    requires cursor <= end <= U64_MAX
    ensures NextCursor(store, cursor, end) > cursor <==> cursor < U64_MAX
    ensures end < U64_MAX ==> NextCursor(store, cursor, end) <= end + 1
    ensures end == U64_MAX ==> NextCursor(store, cursor, end) <= end
  {
  }

  /** The resend cursor after n rounds of the loop, standing still once past the end. */
  function CursorAfter(store: seq<Stored>, begin: nat, end: nat, n: nat): nat {
    if n == 0 then begin
    else
      var cursor := CursorAfter(store, begin, end, n - 1);
      if cursor > end then cursor else NextCursor(store, cursor, end)
  }

  lemma {:induction false} CursorAdvances(store: seq<Stored>, begin: nat, end: nat, n: nat)
    requires begin <= end < U64_MAX
    ensures CursorAfter(store, begin, end, n) > end || CursorAfter(store, begin, end, n) >= begin + n
  {
    if n > 0 {
      CursorAdvances(store, begin, end, n - 1);
      var cursor := CursorAfter(store, begin, end, n - 1);
      if cursor <= end { CursorMovesIff(store, cursor, end); }
    }
  }

  lemma {:induction false} CursorStuck(store: seq<Stored>, begin: nat, n: nat)
    requires begin <= U64_MAX
    ensures CursorAfter(store, begin, U64_MAX, n) <= U64_MAX
  {
    if n > 0 {
      CursorStuck(store, begin, n - 1);
      CursorMovesIff(store, CursorAfter(store, begin, U64_MAX, n - 1), U64_MAX);
    }
  }

  /** A resend loop ends exactly when its range ends below the largest sequence number. */
  lemma ResendEndsIff(store: seq<Stored>, begin: nat, end: nat)
    requires begin <= end <= U64_MAX
    ensures (exists n :: CursorAfter(store, begin, end, n) > end) <==> end < U64_MAX
  {
    if end < U64_MAX {
      CursorAdvances(store, begin, end, end + 1 - begin);
      assert CursorAfter(store, begin, end, end + 1 - begin) > end;
    } else {
      forall n ensures CursorAfter(store, begin, end, n) <= end { CursorStuck(store, begin, n); }
    }
  }

  /** The numbers the resend cursor stands at from here on, the last one past the end. */
  function CursorsFrom(store: seq<Stored>, cursor: nat, end: nat): (cursors: seq<nat>)
    requires end < U64_MAX
    ensures cursors != [] && cursors[0] == cursor
    decreases end + 1 - cursor
  {
    if cursor > end then [cursor]
    else
      CursorMovesIff(store, cursor, end);
      [cursor] + CursorsFrom(store, NextCursor(store, cursor, end), end)
  }

  lemma CursorsStep(store: seq<Stored>, before: seq<nat>, cursor: nat, end: nat)
    requires cursor <= end < U64_MAX
    ensures before + CursorsFrom(store, cursor, end) == before + [cursor] + CursorsFrom(store, NextCursor(store, cursor, end), end)
  {
    LastMoves(before, [cursor], CursorsFrom(store, NextCursor(store, cursor, end), end));
  }

  /** The kept numbers from a to b, ascending. */
  function KeptIn(store: seq<Stored>, a: nat, b: nat): seq<nat>
    decreases b + 1 - a
  {
    if a > b then [] else (if Lookup(store, a).Some? then [a] else []) + KeptIn(store, a + 1, b)
  }

  lemma {:induction false} KeptSkips(store: seq<Stored>, a: nat, n: nat, b: nat)
    requires a <= n <= b + 1 && forall s: nat :: a <= s < n ==> Lookup(store, s).None?
    ensures KeptIn(store, a, b) == KeptIn(store, n, b)
    decreases n - a
  {
    if a < n { KeptSkips(store, a + 1, n, b); }
  }

  // ----- what a retransmission looks like

  function GapFill(sender: string, target: string, seqNo: nat, newSeqNo: nat): string {
    Encode(sender, target, "4", seqNo, [("123", "Y"), ("36", NatToString(newSeqNo))])
  }

  /** The wire that answers for the number under the cursor. */
  ghost predicate AnswerTo(store: seq<Stored>, sender: string, target: string, cursor: nat, end: nat, wire: string) {
    match Lookup(store, cursor)
    case Some(kept) => Decode(kept).Ok? && PossDupOf(Decode(kept).value, wire)
    case None => wire == GapFill(sender, target, cursor, NextCursor(store, cursor, end))
  }

  /** A wire answers for the cursor and moves it to next. */
  ghost predicate Answers(store: seq<Stored>, sender: string, target: string, end: nat, cursor: nat, wire: string, next: nat) {
    cursor <= end && AnswerTo(store, sender, target, cursor, end, wire) && next == NextCursor(store, cursor, end)
  }

  /** The wires sent while the cursor went through these positions, the last one past the end. */
  ghost predicate Retransmits(store: seq<Stored>, sender: string, target: string, cursors: seq<nat>, end: nat, out: seq<string>) {
    && |cursors| == |out| + 1
    && forall i {:trigger out[i]} :: 0 <= i < |out| ==> Answers(store, sender, target, end, cursors[i], out[i], cursors[i + 1])
  }

  lemma MoreRetransmits(store: seq<Stored>, sender: string, target: string, cursors: seq<nat>, end: nat, out: seq<string>, wire: string, next: nat)
    requires Retransmits(store, sender, target, cursors, end, out) && Answers(store, sender, target, end, cursors[|out|], wire, next)
    ensures Retransmits(store, sender, target, cursors + [next], end, out + [wire])
  {
    var more, wires := cursors + [next], out + [wire];
    forall i | 0 <= i < |wires| ensures Answers(store, sender, target, end, more[i], wires[i], more[i + 1]) {
      if i < |out| { assert wires[i] == out[i]; }
    }
  }

  /** n is the redelivery of the message kept under seqNo. */
  ghost predicate Redelivery(store: seq<Stored>, seqNo: nat, n: map<string, string>) {
    exists w :: PossDupOfKept(store, seqNo, w) && Decode(w).Ok? && n == Decode(w).value
  }

  ghost predicate PossDupOfKept(store: seq<Stored>, seqNo: nat, w: string) {
    Lookup(store, seqNo).Some? && Decode(Lookup(store, seqNo).value).Ok? && PossDupOf(Decode(Lookup(store, seqNo).value).value, w)
  }

  lemma ParseInverts(n: nat)
    requires n <= U64_MAX
    ensures ParseU64(NatToString(n)) == Some(n)
  {
    ParseNatInverts(n, U64_MAX);
  }

  lemma PossDupRouting(m: map<string, string>, wire: string, seqNo: nat)
    requires PossDupOf(m, wire) && Resendable(m) == Ok(seqNo) && "35" in m
    ensures var n := Decode(wire).value;
      "34" in n && n["34"] == NatToString(seqNo) && "35" in n && n["35"] == m["35"]
  {
    var n := Decode(wire).value;
    assert "35" in n.Keys && "34" in m.Keys;
  }

  lemma ExpectedIsTaken(r: Receiver, wire: string)
    requires Decode(wire).Ok? && r.expected <= U64_MAX
    requires var n := Decode(wire).value; "34" in n && n["34"] == NatToString(r.expected) && "35" in n && n["35"] != "4"
    ensures Receive(r, wire) == Ok(Receiver(r.expected + 1, r.accepted + [Decode(wire).value], r.resendsAsked))
  {
    ParseInverts(r.expected);
  }

  lemma PossDupAccepted(r: Receiver, store: seq<Stored>, wire: string)
    requires StoreOk(store) && r.expected <= U64_MAX && PossDupOfKept(store, r.expected, wire)
    ensures Receive(r, wire) == Ok(Receiver(r.expected + 1, r.accepted + [Decode(wire).value], r.resendsAsked))
  {
    LookupSound(store, r.expected);
    PossDupRouting(Decode(Lookup(store, r.expected).value).value, wire, r.expected);
    ExpectedIsTaken(r, wire);
  }

  lemma GapFillDecodes(sender: string, target: string, seqNo: nat, newSeqNo: nat)
    requires SOH !in sender && SOH !in target
    ensures var r := Decode(GapFill(sender, target, seqNo, newSeqNo));
      && r.Ok? && "35" in r.value && "34" in r.value && "36" in r.value
      && r.value["35"] == "4" && r.value["34"] == NatToString(seqNo) && r.value["36"] == NatToString(newSeqNo)
  {
    var body := [("123", "Y"), ("36", NatToString(newSeqNo))];
    DigitsFree(NatToString(newSeqNo));
    assert Encodable(sender, target, "4", body);
    assert BodyTagsFree(body);
    RoutingArrives(sender, target, "4", seqNo, body);
    BodyArrives(sender, target, "4", seqNo, body, 1);
  }

  lemma GapFillAccepted(r: Receiver, sender: string, target: string, seqNo: nat, newSeqNo: nat)
    requires SOH !in sender && SOH !in target && seqNo <= U64_MAX && 0 < newSeqNo <= U64_MAX
    ensures Receive(r, GapFill(sender, target, seqNo, newSeqNo)) == Ok(r.(expected := newSeqNo))
  {
    GapFillDecodes(sender, target, seqNo, newSeqNo);
    ParseInverts(seqNo);
    ParseInverts(newSeqNo);
  }

  /** The redeliveries of the kept numbers, one each and in order. */
  ghost predicate Redeliveries(store: seq<Stored>, kept: seq<nat>, got: seq<map<string, string>>) {
    if kept == [] then got == []
    else got != [] && Redelivery(store, kept[0], got[0]) && Redeliveries(store, kept[1..], got[1..])
  }

  lemma FirstRedelivery(store: seq<Stored>, all: seq<nat>, m: map<string, string>, got: seq<map<string, string>>)
    requires all != [] && Redelivery(store, all[0], m) && Redeliveries(store, all[1..], got)
    ensures Redeliveries(store, all, [m] + got)
  {
    assert ([m] + got)[1..] == got;
  }

  lemma KeptFirst(store: seq<Stored>, begin: nat, end: nat)
    requires begin <= end && Lookup(store, begin).Some?
    ensures var all := KeptIn(store, begin, end); all != [] && all[0] == begin && all[1..] == KeptIn(store, begin + 1, end)
  {
  }

  lemma KeptAfterGap(store: seq<Stored>, begin: nat, next: nat, end: nat)
    requires begin <= end < U64_MAX && Lookup(store, begin).None? && next == NextCursor(store, begin, end)
    ensures KeptIn(store, begin, end) == KeptIn(store, next, end)
  {
    forall s: nat | begin <= s < next ensures Lookup(store, s).None? {
      if s > begin { NothingBetween(store, begin, SatSucc(end), s); }
    }
    KeptSkips(store, begin, next, end);
  }

  lemma ReceiveAllStep(r: Receiver, wires: seq<string>, r1: Receiver)
    requires wires != [] && Receive(r, wires[0]) == Ok(r1)
    ensures ReceiveAll(r, wires) == ReceiveAll(r1, wires[1..])
  {
  }

  /** The session after one wire of the answer, and the message it took, if any. */
  lemma OneWire(store: seq<Stored>, sender: string, target: string, begin: nat, end: nat, wire: string, next: nat, r: Receiver)
    returns (r1: Receiver, m: map<string, string>)
    requires StoreOk(store) && SOH !in sender && SOH !in target
    requires 1 <= begin <= end < U64_MAX && r.expected == begin
    requires Answers(store, sender, target, end, begin, wire, next)
    ensures Receive(r, wire) == Ok(r1) && r1.expected == next && begin < next <= end + 1
    ensures if Lookup(store, begin).Some?
            then Redelivery(store, begin, m) && r1 == Receiver(begin + 1, r.accepted + [m], r.resendsAsked)
            else r1 == r.(expected := next)
  {
    CursorMovesIff(store, begin, end);
    m := map[];
    if Lookup(store, begin).Some? {
      PossDupAccepted(r, store, wire);
      assert PossDupOfKept(store, begin, wire);
      m := Decode(wire).value;
    } else {
      GapFillAccepted(r, sender, target, begin, next);
    }
    r1 := Receive(r, wire).value;
  }

  lemma TakeThenRest<T>(before: seq<T>, x: T, rest: seq<T>)
    ensures (before + [x]) + rest == before + ([x] + rest) && before + [] == before
  {
  }

  /** A message taken before the rest. */
  lemma TakenFirst(store: seq<Stored>, r: Receiver, r1: Receiver, m: map<string, string>, got: seq<map<string, string>>, begin: nat, end: nat)
    requires begin <= end && Lookup(store, begin).Some? && Redelivery(store, begin, m)
    requires r1 == Receiver(begin + 1, r.accepted + [m], r.resendsAsked)
    requires Redeliveries(store, KeptIn(store, begin + 1, end), got)
    ensures r1.accepted + got == r.accepted + ([m] + got)
    ensures Redeliveries(store, KeptIn(store, begin, end), [m] + got)
  {
    TakeThenRest(r.accepted, m, got);
    KeptFirst(store, begin, end);
    FirstRedelivery(store, KeptIn(store, begin, end), m, got);
  }

  /** The first wire's part put before what the rest brought. */
  lemma BeforeTheRest(store: seq<Stored>, r: Receiver, r1: Receiver, m: map<string, string>, rest: seq<map<string, string>>,
                      begin: nat, next: nat, end: nat, all: Result<Receiver, ReceiveError>) returns (got: seq<map<string, string>>)
    requires begin <= end < U64_MAX && next == NextCursor(store, begin, end)
    requires if Lookup(store, begin).Some?
             then Redelivery(store, begin, m) && r1 == Receiver(begin + 1, r.accepted + [m], r.resendsAsked)
             else r1 == r.(expected := next)
    requires all == Ok(Receiver(end + 1, r1.accepted + rest, r1.resendsAsked)) && Redeliveries(store, KeptIn(store, next, end), rest)
    ensures all == Ok(Receiver(end + 1, r.accepted + got, r.resendsAsked)) && Redeliveries(store, KeptIn(store, begin, end), got)
  {
    if Lookup(store, begin).Some? {
      TakenFirst(store, r, r1, m, rest, begin, end);
      got := [m] + rest;
    } else {
      KeptAfterGap(store, begin, next, end);
      got := rest;
    }
  }

  lemma RestRetransmits(store: seq<Stored>, sender: string, target: string, cursors: seq<nat>, end: nat, out: seq<string>)
    requires Retransmits(store, sender, target, cursors, end, out) && out != []
    ensures Answers(store, sender, target, end, cursors[0], out[0], cursors[1])
    ensures Retransmits(store, sender, target, cursors[1..], end, out[1..])
  {
    var rest, wires := cursors[1..], out[1..];
    forall i | 0 <= i < |wires| ensures Answers(store, sender, target, end, rest[i], wires[i], rest[i + 1]) {
      assert wires[i] == out[i + 1];
    }
  }

  /** Gap recovery: whatever holes the store has, the answer to a request from begin to end, received by
      a session that expects begin, delivers every kept message in the range exactly once and in order,
      asks for nothing more, and leaves the session expecting end + 1. */
  lemma {:induction false} GapRecovery(store: seq<Stored>, sender: string, target: string, cursors: seq<nat>, end: nat, out: seq<string>, r: Receiver)
    returns (got: seq<map<string, string>>)
    requires StoreOk(store) && SOH !in sender && SOH !in target
    requires Retransmits(store, sender, target, cursors, end, out) && end < U64_MAX
    requires 1 <= cursors[0] <= end + 1 && cursors[|out|] == end + 1 && r.expected == cursors[0]
    ensures ReceiveAll(r, out) == Ok(Receiver(end + 1, r.accepted + got, r.resendsAsked))
    ensures Redeliveries(store, KeptIn(store, cursors[0], end), got)
    decreases |out|
  {
    if out == [] {
      got := [];
      TakeThenRest(r.accepted, map[], []);
    } else {
      var begin := cursors[0];
      RestRetransmits(store, sender, target, cursors, end, out);
      var r1, m := OneWire(store, sender, target, begin, end, out[0], cursors[1], r);
      ReceiveAllStep(r, out, r1);
      got := GapRecovery(store, sender, target, cursors[1..], end, out[1..], r1);
      got := BeforeTheRest(store, r, r1, m, got, begin, cursors[1], end, ReceiveAll(r1, out[1..]));
    }
  }

  // ----- the acceptor as it runs

  class Acceptor {
    const sender: string
    const target: string
    var nextOut: nat
    var store: seq<Stored>

    constructor (sender: string, target: string)
      requires SOH !in sender && SOH !in target
      ensures Valid() && store == []
    {
      this.sender, this.target := sender, target;
      nextOut, store := 1, [];
    }

    ghost predicate Valid()
      reads this
    {
      && SOH !in sender && SOH !in target && StoreOk(store)
      && (forall i :: 0 <= i < |store| ==> store[i].0 == Min(i + 1, U64_MAX)) && nextOut == Min(|store| + 1, U64_MAX)
    }

    /** Sends a business or session message under the next number and keeps it; at the largest number
        the counter stays. The acceptor sends no Sequence Reset this way. */
    method Send(msgType: string, body: seq<Field>) returns (wire: string)
      requires Valid() && msgType != "4" && SOH !in msgType && FieldsOk(body) && BodyTagsFree(body)
      modifies this
      ensures Valid() && nextOut == SatSucc(old(nextOut))
      ensures wire == Encode(sender, target, msgType, old(nextOut), body) && store == old(store) + [(old(nextOut), wire)]
    {
      wire := EncodeFix(sender, target, msgType, nextOut, body);
      RoutingArrives(sender, target, msgType, nextOut, body);
      ParseInverts(nextOut);
      store := store + [(nextOut, wire)];
      nextOut := SatSucc(nextOut);
    }

    /** The range a Resend Request asks for; no end means through the latest. */
    function Range(m: map<string, string>): (nat, nat)
      reads this
    {
      var begin := if "7" in m then ParseU64(m["7"]).GetOr(0) else 0;
      var end := if "16" in m then ParseU64(m["16"]).GetOr(0) else 0;
      (begin, if end == 0 then (if nextOut == 0 then 0 else nextOut - 1) else end)
    }

    /** The smallest kept number above the cursor, by a scan. */
    method FindNextKept(cursor: nat, bound: nat) returns (n: nat)
      ensures n == NextKept(store, cursor, bound)
    {
      n := bound;
      var i := |store|;
      while i > 0
        invariant 0 <= i <= |store| && n == NextKept(store[i..], cursor, bound)
      {
        i := i - 1;
        assert store[i..][0] == store[i] && store[i..][1..] == store[i + 1..];
        if cursor < store[i].0 < n { n := store[i].0; }
      }
      assert store[0..] == store;
    }

    method FindKept(seqNo: nat) returns (wire: Option<string>)
      ensures wire == Lookup(store, seqNo)
    {
      var i := 0;
      while i < |store|
        invariant 0 <= i <= |store| && Lookup(store, seqNo) == Lookup(store[i..], seqNo)
      {
        assert store[i..][0] == store[i] && store[i..][1..] == store[i + 1..];
        if store[i].0 == seqNo { return Some(store[i].1); }
        i := i + 1;
      }
      return None;
    }

    /** A kept message again, as a possible duplicate. */
    method AnswerKept(cursor: nat, end: nat, kept: string) returns (wire: string)
      requires StoreOk(store) && cursor <= end && Lookup(store, cursor) == Some(kept)
      ensures AnswerTo(store, sender, target, cursor, end, wire)
    {
      LookupSound(store, cursor);
      var poss := WithPossDup(kept);
      wire := poss.value;
    }

    /** A gap fill up to the next kept number. */
    method AnswerHole(cursor: nat, end: nat) returns (wire: string, next: nat)
      requires cursor <= end < U64_MAX && Lookup(store, cursor).None?
      ensures next == NextCursor(store, cursor, end) && AnswerTo(store, sender, target, cursor, end, wire)
    {
      next := FindNextKept(cursor, end + 1);
      wire := EncodeFix(sender, target, "4", cursor, [("123", "Y"), ("36", NatToString(next))]);
    }

    /** The wire for one number: kept messages again as possible duplicates, holes as gap fills. */
    method Answer(cursor: nat, end: nat) returns (wire: string, next: nat)
      requires StoreOk(store) && cursor <= end < U64_MAX
      ensures Answers(store, sender, target, end, cursor, wire, next) && cursor < next <= end + 1
    {
      CursorMovesIff(store, cursor, end);
      var kept := FindKept(cursor);
      if kept.Some? {
        wire := AnswerKept(cursor, end, kept.value);
        next := cursor + 1;
      } else {
        wire, next := AnswerHole(cursor, end);
      }
    }

    /** Works the range off, number by number. */
    method ResendRange(begin: nat, end: nat) returns (out: seq<string>)
      requires StoreOk(store) && begin <= end < U64_MAX
      ensures var cursors := CursorsFrom(store, begin, end);
        Retransmits(store, sender, target, cursors, end, out) && cursors[|out|] == end + 1
    {
      out := [];
      var cursor := begin;
      ghost var before: seq<nat> := [];
      while cursor <= end
        invariant begin <= cursor <= end + 1
        invariant Retransmits(store, sender, target, before + [cursor], end, out)
        invariant CursorsFrom(store, begin, end) == before + CursorsFrom(store, cursor, end)
        decreases end + 1 - cursor
      {
        var wire, next := Answer(cursor, end);
        MoreRetransmits(store, sender, target, before + [cursor], end, out, wire, next);
        CursorsStep(store, before, cursor, end);
        out := out + [wire];
        before := before + [cursor];
        cursor := next;
      }
    }

    /** Answers a Resend Request; a request from zero, or past its own end, is not answered. */
    method HandleResendRequest(m: map<string, string>) returns (r: Result<(), FixError>, out: seq<string>)
      requires StoreOk(store) && (var (begin, end) := Range(m); 1 <= begin <= end ==> end < U64_MAX)
      ensures var (begin, end) := Range(m);
        && r == Ok(())
        && if begin == 0 || begin > end then out == []
           else var cursors := CursorsFrom(store, begin, end);
             Retransmits(store, sender, target, cursors, end, out) && cursors[|out|] == end + 1
    {
      var (begin, end) := Range(m);
      out := [];
      if begin != 0 && begin <= end { out := ResendRange(begin, end); }
      r := Ok(());
    }
  }
}
