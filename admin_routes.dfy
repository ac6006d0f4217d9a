/**
 * `GET /api/admin/stats`: a role gate, then three counts over the store.
 * It is a function of the store's contents, so it writes nothing.
 */
module AdminRoutes {
  import opened ComplaintSchema
  import opened Db
  import opened AuthMiddleware

  datatype StatsResult = StatsForbidden | Stats(users: nat, complaints: nat, resolved: nat)

  /** The complaints whose status is exactly "Resolved". */
  function ResolvedIds(complaints: map<Id, Complaint>): (r: set<Id>)
    ensures r <= complaints.Keys
    ensures forall id :: id in r <==> id in complaints && complaints[id].status == "Resolved"
  {
    set id | id in complaints && complaints[id].status == "Resolved"
  }

  lemma SubsetCard<T>(a: set<T>, b: set<T>)
    requires a <= b
    ensures |a| <= |b|
    decreases b
  {
    if b != {} {
      var x :| x in b;
      SubsetCard(a - {x}, b - {x});
    }
  }

  function AdminStats(actor: Principal, users: map<Id, User>, complaints: map<Id, Complaint>): (r: StatsResult)
    ensures r.StatsForbidden? <==> !IsAdmin(actor)
    ensures r.Stats? ==> r.users == |users| && r.complaints == |complaints|
    ensures r.Stats? ==> r.resolved == |ResolvedIds(complaints)| && r.resolved <= r.complaints
  {
    if !IsAdmin(actor) then StatsForbidden
    else
      SubsetCard(ResolvedIds(complaints), complaints.Keys);
      Stats(|users|, |complaints|, |ResolvedIds(complaints)|)
  }

  /** A status update by an admin that requests "Resolved" on a complaint that was not resolved raises the resolved count by one. */
  lemma ResolvingCounts(complaints: map<Id, Complaint>, id: Id, c: Complaint)
    requires id in complaints && complaints[id].status != "Resolved" && c.status == "Resolved"
    ensures ResolvedIds(complaints[id := c]) == ResolvedIds(complaints) + {id}
    ensures |ResolvedIds(complaints[id := c])| == |ResolvedIds(complaints)| + 1
  {
    assert id !in ResolvedIds(complaints);
  }
}
