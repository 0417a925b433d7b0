/** The tables that share the caller's transaction, and the caller's session: what is
    committed, and what the open transaction sees. */
module Database {
  import opened Sql

  datatype LeaseRow = LeaseRow(
    status: string,
    token: Option<nat>,
    expiresAt: Option<int>,
    attempts: nat,
    finishedAt: Option<int>,
    lastError: Option<string>)

  datatype Window = Day(day: int) | Month(month: int)

  datatype BudgetKey = BudgetKey(provider: string, operation: string, window: Window)

  datatype BudgetRow = BudgetRow(hardLimit: int, source: string, reserved: int, used: int, released: int)

  datatype ReservationStatus = Reserved | Used | Released

  datatype Reservation = Reservation(id: nat, budget: BudgetKey, units: int, status: ReservationStatus)

  datatype Ledger = Ledger(budgets: map<BudgetKey, BudgetRow>, reservations: seq<Reservation>)

  type Leases = map<string, LeaseRow>

  /** `observations` are the price observations, named by the reservation of the call that
      brought them. */
  datatype Tables = Tables(ledger: Ledger, leases: Leases, observations: set<nat>)

  class Session {
    var committed: Tables
    var working: Tables

    constructor ()
      ensures committed == working == Tables(Ledger(map[], []), map[], {})
    {
      committed := Tables(Ledger(map[], []), map[], {});
      working := Tables(Ledger(map[], []), map[], {});
    }

    method Commit()
      modifies this`committed
      ensures committed == working
    {
      committed := working;
    }

    method Rollback()
      modifies this`working
      ensures working == committed
    {
      working := committed;
    }
  }
}
