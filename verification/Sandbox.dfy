/** The in-process broker sandbox: immediate acknowledgement, optional immediate full fill, and a
    per-session report journal for recovery. */
module Sandbox {
  import opened Base
  import opened Decimals
  import opened Orders
  import opened Execution

  datatype Inflight = Inflight(venueOrderId: string, orderQty: int, cumQty: int, price: int, canceled: bool)

  datatype NewVenueOrder = NewVenueOrder(id: nat, instrument: nat, side: Side, qty: int, price: int, tif: TimeInForce)

  datatype Venue = Venue(
    autoFill: bool, connected: bool, session: nat,
    nextSeq: nat, nextVenue: nat, nextExec: nat,
    inflight: map<nat, Inflight>, outbox: seq<Report>, history: seq<Report>)

  function NewVenue(autoFill: bool): Venue { Venue(autoFill, true, 1, 1, 1, 1, map[], [], []) }

  function VenueIdText(n: nat): string { "SBX-" + NatToString(n) }

  function ExecIdText(n: nat): string { "SBX-E" + NatToString(n) }

  lemma ExecIdsDistinct(m: nat, n: nat)
    ensures ExecIdText(m) == ExecIdText(n) <==> m == n
  {
    assert ExecIdText(m)[5..] == NatToString(m);
    assert ExecIdText(n)[5..] == NatToString(n);
    NatToStringInjective(m, n);
  }

  function Push(v: Venue, id: nat, venueOrderId: string, exec: Option<string>, t: ExecType, qty: int, price: int): Venue {
    var report := Report(id, venueOrderId, exec, t, qty, price, v.session, v.nextSeq);
    v.(nextSeq := v.nextSeq + 1, history := v.history + [report], outbox := v.outbox + [report])
  }

  function VenueSubmit(v: Venue, o: NewVenueOrder): (Venue, Result<(), ExecutionError>) {
    if !v.connected then (v, Err(Disconnected))
    else if o.qty <= 0 || o.price <= 0 then (v, Err(InvalidVenueQuantity))
    else
      var vid := VenueIdText(v.nextVenue);
      var v := v.(nextVenue := v.nextVenue + 1);
      if o.tif.Fok? && !v.autoFill then (Push(v, o.id, vid, None, RejectedExec("fok"), o.qty, o.price), Ok(()))
      else
        var v := Push(v.(inflight := v.inflight[o.id := Inflight(vid, o.qty, 0, o.price, false)]),
                      o.id, vid, None, NewExec, o.qty, o.price);
        if v.autoFill then
          var exec := ExecIdText(v.nextExec);
          var v := v.(nextExec := v.nextExec + 1, inflight := v.inflight[o.id := Inflight(vid, o.qty, o.qty, o.price, false)]);
          (Push(v, o.id, vid, Some(exec), TradeExec, o.qty, o.price), Ok(()))
        else if o.tif.Ioc? then
          var v := v.(inflight := v.inflight[o.id := Inflight(vid, o.qty, 0, o.price, true)]);
          (Push(v, o.id, vid, None, ExpiredExec, o.qty, o.price), Ok(()))
        else (v, Ok(()))
  }

  function VenueCancel(v: Venue, id: nat): (Venue, Result<(), ExecutionError>) {
    if !v.connected then (v, Err(Disconnected))
    else if id !in v.inflight then (v, Err(UnknownVenueOrder(id)))
    else
      var row := v.inflight[id];
      if row.canceled then (v, Err(InvalidState("already canceled")))
      else if row.cumQty >= row.orderQty then (v, Err(InvalidState("already filled")))
      else
        var v := v.(inflight := v.inflight[id := row.(canceled := true)]);
        (Push(v, id, row.venueOrderId, None, CanceledExec, row.orderQty - row.cumQty, row.price), Ok(()))
  }

  function VenueReplace(v: Venue, id: nat, qty: int, price: int): (Venue, Result<(), ExecutionError>) {
    if !v.connected then (v, Err(Disconnected))
    else if qty <= 0 || price <= 0 then (v, Err(InvalidVenueQuantity))
    else if id !in v.inflight then (v, Err(UnknownVenueOrder(id)))
    else
      var row := v.inflight[id];
      if row.canceled then (v, Err(InvalidState("already canceled")))
      else if qty < row.cumQty then (v, Err(InvalidVenueQuantity))
      else
        var v := v.(inflight := v.inflight[id := row.(orderQty := qty, price := price)]);
        (Push(v, id, row.venueOrderId, None, ReplacedExec, qty, price), Ok(()))
  }

  function Poll(v: Venue): (Venue, seq<Report>) { (v.(outbox := []), v.outbox) }

  /** The reports of a session from a sequence number on, in order. */
  function From(reports: seq<Report>, session: nat, seqNo: nat): seq<Report> {
    if reports == [] then []
    else (if reports[0].session == session && reports[0].seqNo >= seqNo then [reports[0]] else []) + From(reports[1..], session, seqNo)
  }

  function PollRecovery(v: Venue, seqNo: nat): Result<seq<Report>, ExecutionError> {
    if !v.connected then Err(Disconnected) else Ok(From(v.history, v.session, seqNo))
  }

  function Disconnect(v: Venue): Venue { v.(connected := false) }

  function Reconnect(v: Venue): Venue {
    v.(connected := true, session := v.session + 1, nextSeq := 1, history := [], outbox := [])
  }

  function RestoreWorking(v: Venue, id: nat, qty: int, price: int, cum: int, venueOrderId: Option<string>): (Venue, Result<(), ExecutionError>) {
    if qty <= 0 || price <= 0 then (v, Err(InvalidVenueQuantity))
    else if cum < 0 || cum > qty then (v, Err(InvalidVenueQuantity))
    else
      match venueOrderId
      case Some(vid) => (v.(inflight := v.inflight[id := Inflight(vid, qty, cum, price, false)]), Ok(()))
      case None =>
        (v.(nextVenue := v.nextVenue + 1,
            inflight := v.inflight[id := Inflight(VenueIdText(v.nextVenue), qty, cum, price, false)]), Ok(()))
  }

  /** The journal is numbered 1, 2, ... within the current session. */
  ghost predicate Numbered(v: Venue) {
    && v.nextSeq == |v.history| + 1
    && forall i :: 0 <= i < |v.history| ==> v.history[i].session == v.session && v.history[i].seqNo == i + 1
  }

  /** n is v after pushing zero or more reports. */
  ghost predicate Extends(v: Venue, n: Venue) {
    && n.session == v.session && n.connected == v.connected && n.autoFill == v.autoFill
    && v.history <= n.history && v.outbox <= n.outbox
    && n.history[|v.history|..] == n.outbox[|v.outbox|..]
  }

  lemma PushExtends(v: Venue, n: Venue, id: nat, vid: string, exec: Option<string>, t: ExecType, qty: int, price: int)
    requires Numbered(n) && Extends(v, n)
    ensures Numbered(Push(n, id, vid, exec, t, qty, price)) && Extends(v, Push(n, id, vid, exec, t, qty, price))
  {
    var m := Push(n, id, vid, exec, t, qty, price);
    assert m.history[|v.history|..] == n.history[|v.history|..] + [m.history[|n.history|]];
    assert m.outbox[|v.outbox|..] == n.outbox[|v.outbox|..] + [m.history[|n.history|]];
  }

  /** A submission extends the journal by exactly what it queued, and keeps it numbered. */
  lemma SubmitExtends(v: Venue, o: NewVenueOrder)
    requires Numbered(v)
    ensures Numbered(VenueSubmit(v, o).0) && Extends(v, VenueSubmit(v, o).0)
  {
    if v.connected && o.qty > 0 && o.price > 0 {
      var vid := VenueIdText(v.nextVenue);
      var v1 := v.(nextVenue := v.nextVenue + 1);
      if o.tif.Fok? && !v.autoFill {
        PushExtends(v, v1, o.id, vid, None, RejectedExec("fok"), o.qty, o.price);
      } else {
        var v2 := v1.(inflight := v1.inflight[o.id := Inflight(vid, o.qty, 0, o.price, false)]);
        PushExtends(v, v2, o.id, vid, None, NewExec, o.qty, o.price);
        var v3 := Push(v2, o.id, vid, None, NewExec, o.qty, o.price);
        if v.autoFill {
          var v4 := v3.(nextExec := v3.nextExec + 1, inflight := v3.inflight[o.id := Inflight(vid, o.qty, o.qty, o.price, false)]);
          PushExtends(v, v4, o.id, vid, Some(ExecIdText(v3.nextExec)), TradeExec, o.qty, o.price);
        } else if o.tif.Ioc? {
          var v4 := v3.(inflight := v3.inflight[o.id := Inflight(vid, o.qty, 0, o.price, true)]);
          PushExtends(v, v4, o.id, vid, None, ExpiredExec, o.qty, o.price);
        }
      }
    }
  }

  lemma CancelExtends(v: Venue, id: nat)
    requires Numbered(v)
    ensures Numbered(VenueCancel(v, id).0) && Extends(v, VenueCancel(v, id).0)
  {
    if VenueCancel(v, id).1.Ok? {
      var row := v.inflight[id];
      PushExtends(v, v.(inflight := v.inflight[id := row.(canceled := true)]), id, row.venueOrderId, None, CanceledExec, row.orderQty - row.cumQty, row.price);
    }
  }

  lemma ReplaceExtends(v: Venue, id: nat, qty: int, price: int)
    requires Numbered(v)
    ensures Numbered(VenueReplace(v, id, qty, price).0) && Extends(v, VenueReplace(v, id, qty, price).0)
  {
    if VenueReplace(v, id, qty, price).1.Ok? {
      var row := v.inflight[id];
      PushExtends(v, v.(inflight := v.inflight[id := row.(orderQty := qty, price := price)]), id, row.venueOrderId, None, ReplacedExec, qty, price);
    }
  }

  class SandboxBroker {
    const autoFill: bool
    var connected: bool
    var session: nat
    var nextSeq: nat
    var nextVenue: nat
    var nextExec: nat
    var inflight: map<nat, Inflight>
    var outbox: seq<Report>
    var history: seq<Report>

    ghost function View(): Venue
      reads this
    {
      Venue(autoFill, connected, session, nextSeq, nextVenue, nextExec, inflight, outbox, history)
    }

    constructor (autoFill: bool)
      ensures View() == NewVenue(autoFill)
    {
      this.autoFill := autoFill;
      connected, session, nextSeq, nextVenue, nextExec := true, 1, 1, 1, 1;
      inflight, outbox, history := map[], [], [];
    }

    method PushReport(id: nat, venueOrderId: string, exec: Option<string>, t: ExecType, qty: int, price: int)
      modifies this
      ensures View() == Push(old(View()), id, venueOrderId, exec, t, qty, price)
    {
      var report := Report(id, venueOrderId, exec, t, qty, price, session, nextSeq);
      nextSeq := nextSeq + 1;
      history := history + [report];
      outbox := outbox + [report];
    }

    method Submit(o: NewVenueOrder) returns (r: Result<(), ExecutionError>)
      modifies this
      ensures (View(), r) == VenueSubmit(old(View()), o)
    {
      if !connected { return Err(Disconnected); }
      if o.qty <= 0 || o.price <= 0 { return Err(InvalidVenueQuantity); }
      var vid := VenueIdText(nextVenue);
      nextVenue := nextVenue + 1;
      if o.tif.Fok? && !autoFill {
        PushReport(o.id, vid, None, RejectedExec("fok"), o.qty, o.price);
        return Ok(());
      }
      inflight := inflight[o.id := Inflight(vid, o.qty, 0, o.price, false)];
      PushReport(o.id, vid, None, NewExec, o.qty, o.price);
      if autoFill {
        var exec := ExecIdText(nextExec);
        nextExec := nextExec + 1;
        inflight := inflight[o.id := inflight[o.id].(cumQty := o.qty)];
        PushReport(o.id, vid, Some(exec), TradeExec, o.qty, o.price);
      } else if o.tif.Ioc? {
        inflight := inflight[o.id := inflight[o.id].(canceled := true)];
        PushReport(o.id, vid, None, ExpiredExec, o.qty, o.price);
      }
      return Ok(());
    }

    method Cancel(id: nat) returns (r: Result<(), ExecutionError>)
      modifies this
      ensures (View(), r) == VenueCancel(old(View()), id)
    {
      if !connected { return Err(Disconnected); }
      if id !in inflight { return Err(UnknownVenueOrder(id)); }
      var row := inflight[id];
      if row.canceled { return Err(InvalidState("already canceled")); }
      if row.cumQty >= row.orderQty { return Err(InvalidState("already filled")); }
      inflight := inflight[id := row.(canceled := true)];
      PushReport(id, row.venueOrderId, None, CanceledExec, row.orderQty - row.cumQty, row.price);
      return Ok(());
    }

    method Replace(id: nat, qty: int, price: int) returns (r: Result<(), ExecutionError>)
      modifies this
      ensures (View(), r) == VenueReplace(old(View()), id, qty, price)
    {
      if !connected { return Err(Disconnected); }
      if qty <= 0 || price <= 0 { return Err(InvalidVenueQuantity); }
      if id !in inflight { return Err(UnknownVenueOrder(id)); }
      var row := inflight[id];
      if row.canceled { return Err(InvalidState("already canceled")); }
      if qty < row.cumQty { return Err(InvalidVenueQuantity); }
      inflight := inflight[id := row.(orderQty := qty, price := price)];
      PushReport(id, row.venueOrderId, None, ReplacedExec, qty, price);
      return Ok(());
    }

    method TakeReports() returns (reports: seq<Report>)
      modifies this
      ensures (View(), reports) == Poll(old(View()))
    {
      reports := outbox;
      outbox := [];
    }

    method Recover(seqNo: nat) returns (r: Result<seq<Report>, ExecutionError>)
      ensures r == PollRecovery(View(), seqNo)
    {
      if !connected { return Err(Disconnected); }
      var out: seq<Report> := [];
      var i := 0;
      while i < |history|
        invariant 0 <= i <= |history|
        invariant out + From(history[i..], session, seqNo) == From(history, session, seqNo)
      {
        assert history[i..][0] == history[i] && history[i..][1..] == history[i + 1..];
        if history[i].session == session && history[i].seqNo >= seqNo {
          assert out + From(history[i..], session, seqNo) == (out + [history[i]]) + From(history[i + 1..], session, seqNo);
          out := out + [history[i]];
        } else {
          assert From(history[i..], session, seqNo) == From(history[i + 1..], session, seqNo);
        }
        i := i + 1;
      }
      assert out + From(history[i..], session, seqNo) == out;
      return Ok(out);
    }

    method Drop()
      modifies this
      ensures View() == Disconnect(old(View()))
    {
      connected := false;
    }

    method Resume()
      modifies this
      ensures View() == Reconnect(old(View()))
    {
      connected := true;
      session := session + 1;
      nextSeq := 1;
      history, outbox := [], [];
    }

    method Reinstate(id: nat, qty: int, price: int, cum: int, venueOrderId: Option<string>) returns (r: Result<(), ExecutionError>)
      modifies this
      ensures (View(), r) == RestoreWorking(old(View()), id, qty, price, cum, venueOrderId)
    {
      if qty <= 0 || price <= 0 { return Err(InvalidVenueQuantity); }
      if cum < 0 || cum > qty { return Err(InvalidVenueQuantity); }
      var vid: string;
      if venueOrderId.Some? {
        vid := venueOrderId.value;
      } else {
        vid := VenueIdText(nextVenue);
        nextVenue := nextVenue + 1;
      }
      inflight := inflight[id := Inflight(vid, qty, cum, price, false)];
      return Ok(());
    }
  }
}
