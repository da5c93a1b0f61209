/** The moderation callers (`@/services/moderation`). */
module Moderation {
  import opened Common

  datatype ReportParams = ReportParams(
    page: Option<int>, pageSize: Option<int>, status: Option<string>, priority: Option<string>)

  datatype ActionParams = ActionParams(action: Option<string>, page: Option<int>, pageSize: Option<int>)

  /** `...(x ? { name: x } : {})`: the key only when the text is truthy. */
  function SpreadIf(name: string, value: Option<string>): (r: Params) {
    if TruthyString(value) then [(name, Text(value.value))] else []
  }

  /** The `params` object `getReports` sends: `page` and `pageSize` after their
      destructuring defaults, then `status` and `priority` when truthy. */
  function ReportsQuery(p: ReportParams): (r: Params) {
    [("page", Number(Defaulted(p.page, 1))), ("pageSize", Number(Defaulted(p.pageSize, 20)))]
      + SpreadIf("status", p.status) + SpreadIf("priority", p.priority)
  }

  function ReportsRequest(p: ReportParams): (r: Request) {
    Request(Get, "/moderation/reports", Some(ReportsQuery(p)), None)
  }

  /** The report query always opens with `page` and `pageSize`, whose defaults
      replace only an absent value (so 0 is sent as 0), and carries `status`
      and `priority`, in that order, exactly when they are truthy. */
  lemma ReportsQueryShape(p: ReportParams)
    ensures var q := ReportsQuery(p);
      && |q| == 2 + (if TruthyString(p.status) then 1 else 0) + (if TruthyString(p.priority) then 1 else 0)
      && q[0] == ("page", Number(if p.page.Some? then p.page.value else 1))
      && q[1] == ("pageSize", Number(if p.pageSize.Some? then p.pageSize.value else 20))
      && (TruthyString(p.status) ==> q[2] == ("status", Text(p.status.value)))
      && (TruthyString(p.priority) ==> q[|q| - 1] == ("priority", Text(p.priority.value)))
      && (forall i :: 0 <= i < |q| ==> q[i].0 in {"page", "pageSize", "status", "priority"})
  {
    var q := ReportsQuery(p);
    var s, r := SpreadIf("status", p.status), SpreadIf("priority", p.priority);
    assert q == [q[0], q[1]] + s + r;
    forall i | 0 <= i < |q|
      ensures q[i].0 in {"page", "pageSize", "status", "priority"}
    {
      if i >= 2 + |s| {
        assert q[i] == r[i - 2 - |s|];
      } else if i >= 2 {
        assert q[i] == s[i - 2];
      }
    }
  }

  /** A well-formed report list: an object whose `reports` is an array. */
  predicate IsReportList(d: Json) {
    d.Obj? && "reports" in d.fields && d.fields["reports"].Arr?
  }

  function EmptyReportList(pageSize: int): (r: Json) {
    Obj(map[
      "reports" := Arr([]), "total" := Num(0), "page" := Num(1),
      "page_size" := Num(pageSize), "total_pages" := Num(0)])
  }

  /** `getReports`: a well-formed response is kept as it is; a malformed one
      becomes the empty page sized by the defaulted `pageSize`; a rejection
      becomes the empty page sized by `params.pageSize || 20`. The caller
      always gets a well-formed report list and never a rejection. */
  function GetReports(p: ReportParams, server: Server): (r: Json)
    ensures IsReportList(r)
    ensures var reply := server(ReportsRequest(p));
      && (reply.Resolved? && IsReportList(reply.value) ==> r == reply.value)
      && (reply.Resolved? && !IsReportList(reply.value) ==>
            r == EmptyReportList(if p.pageSize.Some? then p.pageSize.value else 20))
      && (reply.Rejected? ==> r == EmptyReportList(if TruthyNumber(p.pageSize) then p.pageSize.value else 20))
  {
    var reply := server(ReportsRequest(p));
    if reply.Rejected? then EmptyReportList(OrDefault(p.pageSize, 20))
    else if IsReportList(reply.value) then reply.value
    else EmptyReportList(Defaulted(p.pageSize, 20))
  }

  /** The two fallbacks agree on the page size except when `pageSize` is 0:
      a malformed response then reports `page_size` 0, a rejection 20. */
  lemma ReportFallbacksDiffer(p: ReportParams, malformed: Json, e: HttpError)
    requires !IsReportList(malformed)
    ensures var onMalformed := GetReports(p, _ => Resolved(malformed));
      var onRejection := GetReports(p, _ => Rejected(e));
      (onMalformed == onRejection <==> p.pageSize != Some(0))
      && (p.pageSize == Some(0) ==>
            onMalformed.fields["page_size"] == Num(0) && onRejection.fields["page_size"] == Num(20))
  {
    if p.pageSize == Some(0) {
      assert EmptyReportList(0).fields["page_size"] != EmptyReportList(20).fields["page_size"];
    }
  }

  /** A report list returned by `getReports` passes through it again unchanged. */
  lemma ReportsFallbackIdempotent(p: ReportParams, server: Server)
    ensures var once := GetReports(p, server);
      GetReports(p, _ => Resolved(once)) == once
  {
  }

  function ProcessReport(reportId: string, body: Json, server: Server): (r: Outcome<Json>) {
    server(Request(Post, "/moderation/reports/" + reportId + "/actions", None, Some(body)))
  }

  function StatsParams(moderatorId: Option<string>): (r: Option<Params>) {
    if TruthyString(moderatorId) then Some([("moderator_id", Text(moderatorId.value))]) else None
  }

  function GetModerationStats(moderatorId: Option<string>, server: Server): (r: Outcome<Json>) {
    server(Request(Get, "/moderation/stats", StatsParams(moderatorId), None))
  }

  /** `params || {}`: an absent object reads as one with every field absent. */
  function GivenActionParams(params: Option<ActionParams>): (r: ActionParams) {
    if params.Some? then params.value else ActionParams(None, None, None)
  }

  function ActionsQuery(params: Option<ActionParams>): (r: Params) {
    var p := GivenActionParams(params);
    [("page", Number(Defaulted(p.page, 1))), ("pageSize", Number(Defaulted(p.pageSize, 20)))]
      + SpreadIf("action", p.action)
  }

  function GetModerationActions(params: Option<ActionParams>, server: Server): (r: Outcome<Json>) {
    server(Request(Get, "/moderation/actions", Some(ActionsQuery(params)), None))
  }

  /** `processReport` posts the body to the report's action path and hands
      back the server's answer, rejection included. */
  lemma ProcessReportPropagates(reportId: string, body: Json, server: Server)
    ensures ProcessReport(reportId, body, server) ==
      server(Request(Post, "/moderation/reports/" + reportId + "/actions", None, Some(body)))
  {
  }

  /** `getModerationStats` sends `moderator_id` exactly when a truthy id is
      given, and no params object at all otherwise. */
  lemma StatsParamsRule(moderatorId: Option<string>, server: Server)
    ensures StatsParams(moderatorId).None? <==> !TruthyString(moderatorId)
    ensures TruthyString(moderatorId) ==>
      StatsParams(moderatorId) == Some([("moderator_id", Text(moderatorId.value))])
    ensures GetModerationStats(moderatorId, server) ==
      server(Request(Get, "/moderation/stats", StatsParams(moderatorId), None))
  {
  }

  /** `getModerationActions` accepts a missing params object, always sends
      `page` and `pageSize` (defaulting to 1 and 20 only when absent), and
      sends `action` last, exactly when it is truthy. */
  lemma ActionsQueryShape(params: Option<ActionParams>)
    ensures params.None? ==> ActionsQuery(params) == [("page", Number(1)), ("pageSize", Number(20))]
    ensures var q := ActionsQuery(params);
      var p := GivenActionParams(params);
      && |q| == (if TruthyString(p.action) then 3 else 2)
      && q[0] == ("page", Number(if p.page.Some? then p.page.value else 1))
      && q[1] == ("pageSize", Number(if p.pageSize.Some? then p.pageSize.value else 20))
      && (TruthyString(p.action) ==> q[2] == ("action", Text(p.action.value)))
  {
  }
}
