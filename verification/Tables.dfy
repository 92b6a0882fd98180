/** The database as the services see it: tables updated in place, inside a transaction that can be abandoned. */
module Tables {
  import opened Basics
  import opened Model

  /** What a transaction did: committed the specified state, or failed and left the tables as they were. */
  predicate Outcome(expected: Result<State>, before: State, after: State, failure: Option<Error>) {
    match expected
    case Ok(s) => failure.None? && after == s
    case Err(e) => failure == Some(e) && after == before
  }

  class Database {
    var orders: map<OrderId, Order>
    var nextOrder: OrderId
    var ledger: seq<Tx>
    var lines: seq<Line>
    var stops: map<(Code, HubId), Stop>

    constructor ()
      ensures Rows() == EMPTY
    {
      orders, nextOrder, ledger, lines, stops := map[], 0, [], [], map[];
    }

    /** The contents of all tables, as the specification functions take them. */
    function Rows(): State
      reads this
    {
      State(orders, nextOrder, ledger, lines, stops)
    }

    /** Abandoning the transaction that found the tables as s. */
    method Abandon(s: State)
      modifies this
      ensures Rows() == s
    {
      orders, nextOrder, ledger, lines, stops := s.orders, s.nextOrder, s.ledger, s.lines, s.stops;
    }

    method SaveOrder(o: OrderId, row: Order)
      modifies this`orders
      ensures orders == old(orders)[o := row]
    {
      orders := orders[o := row];
    }

    method InsertOrder(row: Order) returns (o: OrderId)
      modifies this`orders, this`nextOrder
      ensures o == old(nextOrder) && nextOrder == o + 1 && orders == old(orders)[o := row]
    {
      o := nextOrder;
      orders, nextOrder := orders[o := row], o + 1;
    }

    method InsertLine(row: Line) returns (i: nat)
      modifies this`lines
      ensures i == |old(lines)| && lines == old(lines) + [row]
    {
      i := |lines|;
      lines := lines + [row];
    }

    method InsertTx(row: Tx)
      modifies this`ledger
      ensures ledger == old(ledger) + [row]
    {
      ledger := ledger + [row];
    }

    /** upsertTripStop: INSERT ... ON CONFLICT ("tripCode", "hubId") DO UPDATE. */
    method UpsertTripStop(c: Code, h: HubId, st: StopStatus, kind: StopType, position: nat)
      modifies this`stops
      ensures stops == UpsertStop(old(stops), c, h, st, kind, position)
      ensures (c, h) in stops && stops[(c, h)].live
      ensures (c, h) in old(stops) && old(stops)[(c, h)].status.StopCompleted? ==> stops[(c, h)].status.StopCompleted?
    {
      if (c, h) !in stops {
        stops := stops[(c, h) := Stop(st, kind, position, true)];
      } else {
        var stop := stops[(c, h)];
        if !stop.status.StopCompleted? {
          stop := stop.(status := st);
        }
        stops := stops[(c, h) := stop.(live := true)];
      }
    }
  }
}
