/** The admin's agent table: approve a pending agent, suspend an approved one,
    and the status counts. */
module AdminAgentManage {
  import opened Wrappers
  import opened Seqs

  /** An agent record; `approvalStatus` is the server's string ("pending",
      "approved", "suspended" or "rejected"). */
  datatype Agent = Agent(id: string, userId: string, email: string, commissionRate: real, approvalStatus: string)

  /** The buttons a row shows. */
  datatype Actions = Actions(approve: bool, suspend: bool)

  /** "Approve" for a pending agent, "Suspend" for an approved one. */
  function RowActions(a: Agent): (r: Actions)
    ensures r.approve <==> a.approvalStatus == "pending"
    ensures r.suspend <==> a.approvalStatus == "approved"
  {
    Actions(a.approvalStatus == "pending", a.approvalStatus == "approved")
  }

  /** No row offers both buttons, and suspended or rejected agents get none. */
  lemma AtMostOneAction(a: Agent)
    ensures !(RowActions(a).approve && RowActions(a).suspend)
    ensures a.approvalStatus in {"suspended", "rejected"} ==> RowActions(a) == Actions(false, false)
  {
  }

  /** Only a successful mutation refetches the agent list. */
  function AfterMutation(outcome: Result<string, string>): (refetch: bool)
    ensures refetch <==> outcome.Success?
  {
    outcome.Success?
  }

  predicate IsApproved(a: Agent) { a.approvalStatus == "approved" }

  predicate IsPending(a: Agent) { a.approvalStatus == "pending" }

  predicate IsSuspended(a: Agent) { a.approvalStatus == "suspended" }

  /** The "Total Agents", "Approved", "Pending" and "Suspended" cards. */
  datatype Cards = Cards(total: nat, approved: nat, pending: nat, suspended: nat)

  /** The cards: the list length, and for each status the number of
      positions holding an agent with it. */
  function SummaryCards(agents: seq<Agent>): (c: Cards)
    ensures c.total == |agents|
    ensures c.approved <= c.total && c.pending <= c.total && c.suspended <= c.total
    ensures c.approved == |Positions(IsApproved, agents)|
    ensures c.pending == |Positions(IsPending, agents)|
    ensures c.suspended == |Positions(IsSuspended, agents)|
  {
    FilterCountsPositions(IsApproved, agents);
    FilterCountsPositions(IsPending, agents);
    FilterCountsPositions(IsSuspended, agents);
    Cards(|agents|, |Filter(IsApproved, agents)|, |Filter(IsPending, agents)|, |Filter(IsSuspended, agents)|)
  }

  /** The three status cards never add up to more than the total; the
      difference is the rejected agents (and any other status). */
  lemma {:induction false} StatusCardsBounded(agents: seq<Agent>)
    ensures var c := SummaryCards(agents);
            c.approved + c.pending + c.suspended <= c.total
  {
    if |agents| > 0 {
      StatusCardsBounded(agents[1..]);
    }
  }
}
