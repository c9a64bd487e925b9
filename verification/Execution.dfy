/** Execution reports, venue errors and the consumer's session cursor. */
module Execution {
  import opened Base
  import opened Orders

  datatype ExecutionError =
    | Disconnected
    | UnknownVenueOrder(id: nat)
    | InvalidState(reason: string)
    | InvalidVenueQuantity
    | InvalidIdentifier

  datatype ExecType =
    | NewExec
    | RejectedExec(reason: string)
    | TradeExec
    | CanceledExec
    | ReplacedExec
    | CancelRejectExec(reason: string)
    | ExpiredExec

  datatype Report = Report(
    order: nat, venueOrderId: string, exec: Option<string>, execType: ExecType,
    qty: int, price: int, session: nat, seqNo: nat)

  /** The order event a report stands for; a cancel reject stands for none. */
  function ToOrderEvent(r: Report): Result<Option<OrderEvent>, ExecutionError> {
    match r.execType
    case NewExec => Ok(Some(Accepted(r.venueOrderId)))
    case RejectedExec(reason) => Ok(Some(Reject(reason)))
    case TradeExec => if r.exec.None? then Err(InvalidIdentifier) else Ok(Some(Trade(r.exec.value, r.qty, r.price)))
    case CanceledExec => Ok(Some(CancelConfirmed))
    case ReplacedExec => Ok(Some(Replaced(r.qty, r.price)))
    case CancelRejectExec(_) => Ok(None)
    case ExpiredExec => Ok(Some(Expire))
  }

  predicate ReportFits(r: Report) { FitsI64(r.qty) && FitsI64(r.price) }

  datatype TradeSnapshot = TradeSnapshot(order: nat, exec: string, qty: int, price: int, session: nat, seqNo: nat)
}
