/** The custom resources and the EWM orders which the controllers exchange. */
module Warehouse {
  type Robot = string

  /** A warehouse order is identified by its warehouse number and its own number. */
  datatype Ident = Ident(lgnum: string, who: string)

  /** `lsd` is the latest start date, zero when none is set; `sources` are the source bins of the open tasks. */
  datatype WarehouseOrder = WarehouseOrder(id: Ident, lsd: int, sources: seq<string>)

  datatype Bidding = Bidding(id: Ident, value: real)

  datatype OrderAssignment = OrderAssignment(id: Ident, rsrc: string)

  datatype AuctionStatus = AuctionOpen | AuctionClosed | AuctionCompleted

  /** One OrderAuction resource: the part of one robot in an auction. */
  datatype OrderAuction = OrderAuction(
    robot: Robot, whos: seq<WarehouseOrder>, status: AuctionStatus, validUntil: int,
    bidCompleted: bool, biddings: seq<Bidding>)

  datatype ReservationStatus = Unset | New | Accepted | Reservations | Failed | Succeeded | Timeout

  /** Which orders an auctioneer asks for: warehouse, resource type and resource group. */
  datatype Scope = Scope(lgnum: string, rsrctype: string, rsrcgrp: string)

  /**
   * One OrderReservation resource. `assignments` belongs to its spec and is written by the
   * auctioneer; `whos` and `delivered` belong to its status and are written by the order manager.
   */
  datatype Reservation = Reservation(
    owner: string, created: int, scope: Scope, quantity: int, assignments: seq<OrderAssignment>,
    status: ReservationStatus, validUntil: int, whos: seq<WarehouseOrder>, delivered: seq<OrderAssignment>)

  predicate Reserved(whos: seq<WarehouseOrder>, id: Ident) {
    exists i :: 0 <= i < |whos| && whos[i].id == id
  }
}
