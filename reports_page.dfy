/**
 * The reports page (app/dashboard/reports/page.tsx): the role- and owner-based visibility
 * filter applied to the fetched list, the routing of a decision to the GM or DGM endpoint,
 * and the rule that reports are fetched only once the viewer's role is known.
 */
module ReportsPage {
  import opened Wrappers
  import opened Api
  import opened Seqs
  import StatusModal

  /** What `api.reports.list()` gives: a failure, a value that is not an array, or the reports. */
  datatype FetchResult = FetchFailed | NotAnArray | Fetched(items: seq<Report>)

  /** What `api.auth.me(token)` gives. */
  datatype MeResult = MeFailed | Me(role: UserRole, id: string)

  /** The remote calls the page makes, in order. */
  datatype ApiCall =
    | ListReports
    | GetMe(token: string)
    | GmDecision(reportId: string, payload: StatusModal.DecisionPayload)
    | DgmDecision(reportId: string, payload: StatusModal.DecisionPayload)

  predicate IsGmStage(r: Report) {
    r.status == "dgm_approved" || r.status == "gm_approved"
  }

  /** `if (userId)`: a user id is usable when present and non-empty. */
  predicate KnownId(userId: Option<string>) {
    userId.Some? && userId.value != ""
  }

  /** The filter inside fetchReports. */
  function VisibleReports(role: Option<UserRole>, userId: Option<string>, data: seq<Report>): seq<Report> {
    if role == Some(GeneralManager) then
      Filter(IsGmStage, data)
    else if role == Some(Developer) then
      if KnownId(userId) then Filter((r: Report) => r.developerId == userId.value, data) else []
    else
      data
  }

  /** The list fetchReports leaves behind. */
  function ReportsAfterFetch(role: Option<UserRole>, userId: Option<string>, result: FetchResult): (r: seq<Report>)
    ensures !result.Fetched? ==> r == []
  {
    if result.Fetched? then VisibleReports(role, userId, result.items) else []
  }

  /** A general manager sees exactly the dgm_approved and gm_approved reports, each as often as fetched. */
  lemma GeneralManagerSees(data: seq<Report>, userId: Option<string>, x: Report)
    ensures var v := VisibleReports(Some(GeneralManager), userId, data);
            && (x in v <==> x in data && IsGmStage(x))
            && multiset(v)[x] == if IsGmStage(x) then multiset(data)[x] else 0
  {
    FilterMembership(IsGmStage, data, x);
    FilterCounts(IsGmStage, data, x);
  }

  /** A developer with a known id sees exactly the reports they own, each as often as fetched. */
  lemma DeveloperSeesOwn(data: seq<Report>, userId: Option<string>, x: Report)
    requires KnownId(userId)
    ensures var v := VisibleReports(Some(Developer), userId, data);
            && (x in v <==> x in data && x.developerId == userId.value)
            && multiset(v)[x] == if x.developerId == userId.value then multiset(data)[x] else 0
  {
    var owns := (r: Report) => r.developerId == userId.value;
    FilterMembership(owns, data, x);
    FilterCounts(owns, data, x);
  }

  /** A developer whose id is unknown sees nothing. */
  lemma DeveloperWithoutIdSeesNothing(data: seq<Report>, userId: Option<string>)
    requires !KnownId(userId)
    ensures VisibleReports(Some(Developer), userId, data) == []
  {
  }

  /** Admins, deputy general managers and an unknown role see the list unchanged. */
  lemma OtherRolesSeeAll(role: Option<UserRole>, userId: Option<string>, data: seq<Report>)
    requires role != Some(GeneralManager) && role != Some(Developer)
    ensures VisibleReports(role, userId, data) == data
  {
  }

  /** The visible list is always the fetched list with some reports left out, order kept. */
  lemma VisibleIsSubsequence(role: Option<UserRole>, userId: Option<string>, data: seq<Report>)
    ensures IsSubsequence(VisibleReports(role, userId, data), data)
  {
    if role == Some(GeneralManager) {
      FilterIsSubsequence(IsGmStage, data);
    } else if role == Some(Developer) {
      if KnownId(userId) {
        FilterIsSubsequence((r: Report) => r.developerId == userId.value, data);
      }
    } else {
      SubsequenceReflexive(data);
    }
  }

  /** A list a general manager already sees is shown whole: the filter keeps every report. */
  lemma GeneralManagerFilterStable(data: seq<Report>, userId: Option<string>)
    requires forall i :: 0 <= i < |data| ==> IsGmStage(data[i])
    ensures VisibleReports(Some(GeneralManager), userId, data) == data
  {
    FilterKeepsAll(IsGmStage, data);
  }

  /** The page's state. */
  class ReportsPage {
    var reports: seq<Report>
    var isLoading: bool
    var userRole: Option<UserRole>
    var userId: Option<string>
    var calls: seq<ApiCall>

    constructor ()
      ensures reports == [] && isLoading && userRole == None && userId == None && calls == []
    {
      reports, isLoading, userRole, userId, calls := [], true, None, None, [];
    }

    /** fetchReports: one list call; its result filtered by role, or emptied on any failure. */
    method FetchReports(result: FetchResult)
      modifies this`reports, this`isLoading, this`calls
      ensures calls == old(calls) + [ListReports]
      ensures reports == ReportsAfterFetch(userRole, userId, result)
      ensures !isLoading
    {
      isLoading := true;
      calls := calls + [ListReports];
      if !result.Fetched? {
        reports := [];
      } else if userRole == Some(GeneralManager) {
        reports := Filter(IsGmStage, result.items);
      } else if userRole == Some(Developer) {
        if KnownId(userId) {
          var owner := userId.value;
          reports := Filter((r: Report) => r.developerId == owner, result.items);
        } else {
          reports := [];
        }
      } else {
        reports := result.items;
      }
      isLoading := false;
    }

    /** fetchUserData: with a non-empty token, ask the server who the user is and keep role and id. */
    method LoadUser(token: Option<string>, me: MeResult)
      modifies this`userRole, this`userId, this`calls
      ensures token.Some? && token.value != "" ==> calls == old(calls) + [GetMe(token.value)]
      ensures !(token.Some? && token.value != "") ==> calls == old(calls)
      ensures token.Some? && token.value != "" && me.Me? ==> userRole == Some(me.role) && userId == Some(me.id)
      ensures !(token.Some? && token.value != "" && me.Me?) ==> userRole == old(userRole) && userId == old(userId)
    {
      if token.Some? && token.value != "" {
        calls := calls + [GetMe(token.value)];
        if me.Me? {
          userRole := Some(me.role);
          userId := Some(me.id);
        }
      }
    }

    /** The effect on [userRole, userId]: reports are fetched only once the role is known. */
    method OnUserChanged(result: FetchResult)
      modifies this`reports, this`isLoading, this`calls
      ensures userRole.None? ==> calls == old(calls) && reports == old(reports) && isLoading == old(isLoading)
      ensures userRole.Some? ==>
                calls == old(calls) + [ListReports] && reports == ReportsAfterFetch(userRole, userId, result) && !isLoading
    {
      if userRole.Some? {
        FetchReports(result);
      }
    }

    /**
     * handleSubmitStatusUpdate: the GM endpoint iff isGM, otherwise the DGM endpoint; the list is
     * re-fetched only when the decision call succeeds, and the call's outcome is passed back to the modal.
     */
    method HandleSubmitStatusUpdate(
      reportId: string, payload: StatusModal.DecisionPayload, isGM: bool,
      decision: RemoteOutcome, refetch: FetchResult)
      returns (outcome: RemoteOutcome)
      modifies this`reports, this`isLoading, this`calls
      ensures outcome == decision
      ensures var call := if isGM then GmDecision(reportId, payload) else DgmDecision(reportId, payload);
              calls == old(calls) + [call] + (if decision.Fulfilled? then [ListReports] else [])
      ensures decision.Fulfilled? ==> reports == ReportsAfterFetch(userRole, userId, refetch) && !isLoading
      ensures !decision.Fulfilled? ==> reports == old(reports) && isLoading == old(isLoading)
    {
      if isGM {
        calls := calls + [GmDecision(reportId, payload)];
      } else {
        calls := calls + [DgmDecision(reportId, payload)];
      }
      outcome := decision;
      if decision.Fulfilled? {
        FetchReports(refetch);
      }
    }
  }
}
