/** The review buttons of the admin ticket list: which target statuses a
    ticket's current status offers, and the update they trigger. */
module TicketActions {
  import opened Domain

  /** The buttons shown for the status string of a ticket, as targets: Review
      from `pending`, Approve and Reject from `in_review`, Reset from
      `approved` or `rejected`, nothing otherwise. */
  function OfferedTargets(current: string): seq<TicketStatus> {
    if current == Pending.Name() then [InReview]
    else if current == InReview.Name() then [Approved, Rejected]
    else if current == Approved.Name() || current == Rejected.Name() then [Pending]
    else []
  }

  /** The offered targets, status by status, and nothing for a string that
      is not one of the four statuses. */
  lemma OfferedTable(current: string)
    ensures current == "pending" ==> OfferedTargets(current) == [InReview]
    ensures current == "in_review" ==> OfferedTargets(current) == [Approved, Rejected]
    ensures current == "approved" || current == "rejected" ==> OfferedTargets(current) == [Pending]
    ensures current !in {"pending", "in_review", "approved", "rejected"} ==> OfferedTargets(current) == []
  {
  }

  /** One offered step, between the stored names. */
  predicate Step(a: TicketStatus, b: TicketStatus) {
    b in OfferedTargets(a.Name())
  }

  /** Only `in_review` leads to `approved` or `rejected`. */
  lemma DecisionOnlyFromReview(a: TicketStatus, b: TicketStatus)
    requires Step(a, b) && (b == Approved || b == Rejected)
    ensures a == InReview
  {
  }

  /** A sequence of statuses joined by offered steps. */
  predicate IsRun(run: seq<TicketStatus>) {
    forall i :: 0 <= i < |run| - 1 ==> Step(run[i], run[i + 1])
  }

  /** In a run of offered steps every decision is taken at `in_review`:
      each `approved` or `rejected` after the first status comes straight
      after `in_review`, so a run that ends in a decision has one just
      before its end. */
  lemma {:induction false} DecisionThroughReview(run: seq<TicketStatus>)
    requires IsRun(run)
    ensures forall k :: 1 <= k < |run| && (run[k] == Approved || run[k] == Rejected) ==> run[k - 1] == InReview
    ensures |run| >= 2 && (run[|run| - 1] == Approved || run[|run| - 1] == Rejected) ==> run[|run| - 2] == InReview
  {
    forall k | 1 <= k < |run| && (run[k] == Approved || run[k] == Rejected)
      ensures run[k - 1] == InReview
    {
      assert Step(run[k - 1], run[k]);
      DecisionOnlyFromReview(run[k - 1], run[k]);
    }
  }

  /** The stored names are pairwise different, so the table never offers
      the status a ticket already has. */
  lemma NoSelfStep(a: TicketStatus)
    ensures !Step(a, a)
  {
  }

  /** The ticket rows by id. */
  class TicketTable {
    var rows: map<string, Ticket>

    constructor (initial: map<string, Ticket>)
      ensures rows == initial
    {
      rows := initial;
    }

    /** `update({ status }).eq('id', ticketId)`: when the database accepts
        it (`ok`), the status of the ticket with that id, if there is one;
        when it answers with an error, nothing changes. The error is not
        inspected, so the button behaves the same either way. */
    method UpdateStatus(ticketId: string, newStatus: TicketStatus, ok: bool)
      modifies this
      ensures rows == if ok then StatusWritten(old(rows), ticketId, newStatus) else old(rows)
    {
      if ok {
        rows := StatusWritten(rows, ticketId, newStatus);
      }
    }
  }

  /** Only the `status` field of the row with the id changes; without such a
      row nothing does. */
  function StatusWritten(rows: map<string, Ticket>, ticketId: string, s: TicketStatus): (r: map<string, Ticket>)
    ensures r.Keys == rows.Keys
    ensures forall k :: k in rows && k != ticketId ==> r[k] == rows[k]
    ensures ticketId in rows ==> r[ticketId] == rows[ticketId].(status := s)
  {
    if ticketId in rows then rows[ticketId := rows[ticketId].(status := s)] else rows
  }

  /** Writing a status twice is writing it once, and the later write wins. */
  lemma StatusWrittenTwice(rows: map<string, Ticket>, ticketId: string, s: TicketStatus, t: TicketStatus)
    ensures StatusWritten(StatusWritten(rows, ticketId, s), ticketId, t) == StatusWritten(rows, ticketId, t)
  {
  }
}
