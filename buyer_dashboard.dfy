/** The buyer's dashboard (client/src/pages/BuyerDashboard.js): request counts by status and
    the most recent requests, from the list the server returns. */
module BuyerDashboard {
  import opened Common
  import opened Ordering
  import opened RequestModel
  import RequestRoutes

  datatype BuyerStats = BuyerStats(totalRequests: nat, pendingRequests: nat,
                                   acceptedRequests: nat, completedRequests: nat)

  predicate IsPending(r: Request) { r.status == Pending }
  predicate IsAccepted(r: Request) { r.status == Accepted }
  predicate IsCompleted(r: Request) { r.status == Completed }

  /** The `setStats` figures. */
  function Stats(requests: seq<Request>): (s: BuyerStats)
    ensures s.totalRequests == |requests|
    ensures s.pendingRequests + s.acceptedRequests + s.completedRequests <= s.totalRequests
  {
    CountDisjoint3(requests, IsPending, IsAccepted, IsCompleted);
    BuyerStats(|requests|, Count(requests, IsPending), Count(requests, IsAccepted), Count(requests, IsCompleted))
  }

  /** One more request in the list raises the total by one and exactly the count of its status. */
  lemma StatsTally(requests: seq<Request>, r: Request)
    ensures var before := Stats(requests);
      var after := Stats(requests + [r]);
      && after.totalRequests == before.totalRequests + 1
      && after.pendingRequests == before.pendingRequests + (if r.status == Pending then 1 else 0)
      && after.acceptedRequests == before.acceptedRequests + (if r.status == Accepted then 1 else 0)
      && after.completedRequests == before.completedRequests + (if r.status == Completed then 1 else 0)
  {
    CountSnoc(requests, r, IsPending);
    CountSnoc(requests, r, IsAccepted);
    CountSnoc(requests, r, IsCompleted);
  }

  /** `requests.slice(0, 5)`. */
  function RecentRequests(requests: seq<Request>): (r: seq<Request>)
    ensures |r| == if |requests| < 5 then |requests| else 5
    ensures r <= requests
  {
    Take(requests, 5)
  }

  /** The server lists newest first, so the recent requests are the newest ones. */
  lemma RecentAreNewest(requests: seq<Request>, i: nat, j: nat)
    requires SortedBy(requests, RequestRoutes.NewestFirst)
    requires i < |RecentRequests(requests)| <= j < |requests|
    ensures RecentRequests(requests)[i].createdAt >= requests[j].createdAt
  {
    PrefixPrecedesRest(requests, RequestRoutes.NewestFirst, 5, i, j);
  }
}
