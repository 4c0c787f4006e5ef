# Kaytu engine: compliance lifecycle and rule engines in Dafny

This project models the core of the kaytu engine (open-governance), a
multi-cloud governance platform written in Go, and proves properties of
that model.

## What is modelled

**Compliance job and runner lifecycle.** A compliance job fans out into
runners. Each runner evaluates one query on one connection.

- `compliance_job.dfy` holds the job, runner and summarizer tables and the
  statements over them:
  - the timeout sweep, the promotion of CREATED jobs to
    RUNNERS_IN_PROGRESS, and the retention delete are methods of the
    `ComplianceDb` class;
  - the listings (runners completed, jobs to finish, unqueued runners with
    their shuffle), the finding-count sum and the count by date are
    functions over a snapshot of the tables.
- `publisher.dfy` is the publisher's bounded batch loop. It moves runners
  from CREATED to QUEUED or FAILED and produces keyed job messages.
- `runner_service.dfy` is the runner's commit/requeue/result contract.
- `worker_job.dfy` is the report worker. It evaluates a benchmark tree,
  turns query rows into findings and builds the job result.
- `summarizer_scheduler.dfy` is the single-job-at-a-time rule for
  must-summarize jobs.

**Rule engines and small rules.**

- `alerting.dfy`: the alert-rule condition evaluator and the scope-to-connection filter.
- `httpserver_auth.dfy`: the role order and handler authorisation.
- `connection.dfy`: connection lifecycle validation.
- `provider_summary.dfy`: provider-summary document keys.
- `lb_cost.dfy`: the load-balancer price family.
- `ec2_cost.dfy`: the EC2 cost-submission value map and license table.
- `vm_cost.dfy`: latest-year price selection.

**Aggregation and request guards.**

- `inventory_summary.dfy`: group-by-name summing with its cache-or-search choice.
- `inventory_routes.dfy`: the metric listing, the "count" order and the
  tag-value composition with its top values and "others".
- `auth_routes.dfy`: the workspace user and API-key handlers.

**Parsers and string builders.**

- `reporter.dfy`: the reporter's SQL with numbered placeholders.
- `compliance_client.dfy`: the compliance client's URLs and findings request.
- `steampipe_columns.dfy`: the empty-time stripping rewrite.
- `rds_products.dfy`: the RDS product column map.
- `wastage_ingestion.dfy`: price-list ingestion, from CSV header to row
  routing, plus the data-age refresh rule.
- `kafka_es_sink.dfy`: the Kafka-to-Elasticsearch sink's buffer.

`common.dfy` holds `Option`/`Result` and the string and sequence helpers
that the Go code takes from its standard library.

### Modelling conventions

- Remote services, database statements that are not in the modelled
  files, clocks and parsers are parameters or oracle functions. These
  include the onboard, compliance, Auth0 and metadata clients,
  Elasticsearch, the queues and time parsing.
- A Go panic (nil dereference or index out of range) that data can
  reach is an explicit outcome of the member it happens in: `Panic`,
  `Panicked`, `Crashed`, `LookupPanic`, `RowPanic`, `RowPanicked`,
  `RunPanicked` or `None`, as each module says. Two are required away
  instead, as "Left out" says: an unsupported role given to
  `roleToPriority`, and a reporter row without one value per column.
- Loops that update variables are `while` loops, each proved against a
  specification function. The alerting evaluator's nested loops, which
  return from inside the inner loop, are the recursive functions
  `AndLoop`, `OrLoop` and `GroupLoop`.
- State that the source updates in place is a class with `modifies`
  clauses:
  - the compliance tables;
  - the publisher's runner table and queue;
  - the summarizer table and queue;
  - the Kafka sink's buffer;
  - the RDS product's fields.
- Times are integers (seconds).
- Go's map iteration order is an explicit parameter of
  `RdsProduct.PopulateFromMap`, whose outcome is proved independent of it.
  Elsewhere one order is fixed: the tag values of the composition are
  visited in first-seen order (only the order of equal counts could
  differ after the sort), and the groupings of `inventory_summary.dfy`
  are returned as maps.

## Model

| member | source | states |
|---|---|---|
| Alerting.CompareValue | pkg/alerting/scheduler.go:402-432 | for each of the six operators, the result holds iff the total compares with the threshold that way; an unknown operator never holds |
| Alerting.CompareValueConsistent | pkg/alerting/scheduler.go:402-432 | `>=` is `>` or `==`, `!=` is the negation of `==`, `<` the negation of `>=` |
| Alerting.CalculationOperations | pkg/alerting/scheduler.go:234-247 | a leaf operator yields its comparison; an operator with neither a leaf nor a condition fails with "error entering the operation" |
| Alerting.CalculationConditionStr | pkg/alerting/scheduler.go:314-333 | a condition type other than AND and OR fails with "please enter right condition" |
| Alerting.AndOfLeaves | pkg/alerting/scheduler.go:249-265 | an AND list of leaf comparisons holds iff every leaf holds |
| Alerting.OrOfLeaves | pkg/alerting/scheduler.go:335-356 | an OR list of leaf comparisons holds iff some leaf holds |
| Alerting.LeafRules | pkg/alerting/scheduler.go:314-333 | a whole AND rule over leaves is the conjunction of the leaves, an OR rule their disjunction |
| Alerting.EmptyListFails | pkg/alerting/scheduler.go:311 | an empty AND or OR operand list is an error ("error"), not a boolean |
| Alerting.OrGroupOfLeaves | pkg/alerting/scheduler.go:289-300 | inside a nested OR group of leaves, the loop returns true at the first true leaf; with no true leaf it returns false when the group is last and goes on otherwise |
| Alerting.SatisfiedOrGroupDecidesAnd | pkg/alerting/scheduler.go:266-300 | in an AND list, a nested OR group with a true leaf makes the whole rule true at once, whatever follows |
| Alerting.UnsatisfiedOrGroupSkipped | pkg/alerting/scheduler.go:293-306 | in an AND list, a nested OR group with no true leaf that is not last is skipped: the evaluation continues with the next element |
| Alerting.OrBoundByTypeLengthPanics | pkg/alerting/scheduler.go:357-359 | as written, the inner loop of an OR list runs to the length of the group's type string, so an "AND" group with one true operand indexes past its operands |
| Alerting.OrGroupInOrList | pkg/alerting/scheduler.go:357-386 | with the operand count as bound, a nested OR group with a true leaf makes an OR list true |
| Alerting.FirstIndex | pkg/alerting/scheduler.go:222-227 | the position of the first occurrence: it holds the value and no earlier position does |
| Alerting.Dedup | pkg/alerting/scheduler.go:222-227 | the de-duplicated IDs are exactly the IDs of the group |
| Alerting.DedupHasNoDuplicates | pkg/alerting/scheduler.go:222-227 | the de-duplicated IDs contain no repetition |
| Alerting.DedupKeepsFirstOccurrences | pkg/alerting/scheduler.go:222-227 | the de-duplicated IDs come in the order of their first occurrences |
| Alerting.DedupLength | pkg/alerting/scheduler.go:222-227 | de-duplication never lengthens the list |
| Alerting.DedupIds | pkg/alerting/scheduler.go:211-228 | the check-map loop computes the de-duplicated list |
| Alerting.GetConnectionIdFilter | pkg/alerting/scheduler.go:199-232 | no scope gives no filter; both an ID and a group is the bad-request error; an ID alone is itself; a group's lookup error is wrapped, an empty group is no filter, otherwise the de-duplicated group |
| Alerting.GroupFilterIsDuplicateFree | pkg/alerting/scheduler.go:222-227 | a group's filter has no repetition, lists exactly the group's connections and is no longer than the group |
| AuthRoutes.ListRoles | pkg/auth/http.go:88-134 | three summaries in the order Admin, Editor, Viewer, each with its fixed description and the number of users holding that role in the workspace |
| AuthRoutes.RoleCountsPartitionSupportedUsers | pkg/auth/http.go:99-108 | the three counts add up to the number of users holding a supported role, which is at most the number of users |
| AuthRoutes.PutRoleBinding | pkg/auth/http.go:206-250 | a caller changing their own role to a non-admin role is rejected (400); a user new to the workspace is rejected (406) iff the workspace is already full; a user whose access map is nil panics at the assignment; on success the user's access has the new role for this workspace and every other entry unchanged |
| AuthRoutes.MemberRebindIgnoresLimit | pkg/auth/http.go:225-238 | a user already in the workspace is re-bound without the user limit or the user search being consulted |
| AuthRoutes.RemoveWorkspaceAccess | pkg/auth/http.go:261-282 | a caller removing themself is rejected (400); on success this workspace's entry is gone and every other entry is unchanged (DeleteRoleBinding; DeleteInvitation at lines 593-611 is the same code) |
| AuthRoutes.EmailDomainAllowed | pkg/auth/http.go:521-531 | the allowlist passes iff the list is empty or the e-mail ends with one of the domains |
| AuthRoutes.InviteGuard | pkg/auth/http.go:485-538 | an invitation passes iff inviting is allowed, the workspace has room for one more user and the e-mail matches the allowlist when the setting is a list; each failing guard gives its own 406 message |
| AuthRoutes.InvitedAccess | pkg/auth/http.go:547-553 | an existing invited user gains the role in this workspace and keeps every other entry |
| AuthRoutes.MaskToken | pkg/auth/http.go:663 | the masked key is the first 3 characters, "..." and the last 2 characters, 8 characters long; a token shorter than 3 characters panics |
| AuthRoutes.CreateApiKey | pkg/auth/http.go:622-712 | disabled key support is rejected; a short token panics; the key limit rejects iff the count is already at the maximum; the stored key is active, not revoked, masked, and carries the caller, workspace, name and role |
| AuthRoutes.GetApiKey | pkg/auth/http.go:779-807 | a key with ID 0 is answered with 404 "api key not found", any other fetched key is returned unchanged, and a fetch error is passed through |
| ComplianceClient.EndpointURLRoundTrip | pkg/compliance/client/compliance.go:33-103 | every per-ID URL (assignments, benchmark, policy, query, insight) starts with the base URL and decodes back to the call and ID that produced it, so distinct calls request distinct URLs |
| ComplianceClient.ListInsightsMetadataURL | pkg/compliance/client/compliance.go:73-86 | with no connectors the URL is the bare insight path; otherwise "?" followed by one `connector=<c>` parameter per connector, joined by "&" |
| ComplianceClient.ConnectorParams | pkg/compliance/client/compliance.go:84 | one `connector=<c>` parameter per connector, in input order |
| ComplianceClient.InsightQueryRoundTrip | pkg/compliance/client/compliance.go:73-86 | splitting the query string at "&" gives back exactly the connector parameters, in order, when no connector contains "&" |
| ComplianceClient.SplitJoin | pkg/compliance/client/compliance.go:78-84 | splitting a separator-joined list gives the parts back when no part contains the separator |
| ComplianceClient.GetFindingsRequestFor | pkg/compliance/client/compliance.go:105-124 | the posted request filters on the given connections and resources and on the one benchmark, sorts by status descending, and asks for page 1 of size 100 |
| ComplianceJobs.NotDoneCountZero | pkg/describe/db/compliance_job.go:243-245 | the count of not-done runners of a job is zero iff every runner of that job is SUCCEEDED, TIMEOUT, or FAILED with at least 3 retries |
| ComplianceJobs.ListJobsWithRunnersCompleted | pkg/describe/db/compliance_job.go:238-258 | a job is listed iff it is RUNNERS_IN_PROGRESS or SINK_IN_PROGRESS, all its runners are queued, none of its runners is unfinished, and its trigger is Manual exactly when `manuals` is set |
| ComplianceJobs.JobWithoutRunnersIsCompleted | pkg/describe/db/compliance_job.go:242-252 | a queued, in-progress job with no runners at all qualifies for the fan-in |
| ComplianceJobs.UnfinishedRunnerBlocksJob | pkg/describe/db/compliance_job.go:243-245 | one unfinished runner keeps its job out of the fan-in |
| ComplianceJobs.TotalFindingCountAppend | pkg/describe/db/compliance_job.go:283-291 | the finding total of a job splits over any split of the runner table, so row order does not matter |
| ComplianceJobs.TotalFindingCountOfOtherJobs | pkg/describe/db/compliance_job.go:285 | a job with no runners, or only runners with NULL counts, has total 0 |
| ComplianceJobs.RunnerCountBoundedByTotal | pkg/describe/db/compliance_job.go:285 | with non-negative counts, each runner's count is at most the job total |
| ComplianceJobs.NonNegativeTotal | pkg/describe/db/compliance_job.go:285 | with non-negative counts the total is non-negative |
| ComplianceJobs.FinishedSummarizerCountPositive | pkg/describe/db/compliance_job.go:297 | the count of finished summarizers is positive iff some summarizer of the job is SUCCEEDED or FAILED with at least 3 retries |
| ComplianceJobs.ListJobsToFinish | pkg/describe/db/compliance_job.go:293-304 | a job is listed iff it is SUMMARIZER_IN_PROGRESS and at least one of its summarizers has finished |
| ComplianceJobs.CountComplianceJobsByDate | pkg/describe/db/compliance_job.go:13-24 | the count is at most the number of jobs, and it is positive iff some SUCCEEDED job was updated in [start, end) |
| ComplianceJobs.CountByDateIsMatchingRows | pkg/describe/db/compliance_job.go:13-24 | the count is exactly the number of SUCCEEDED jobs updated in [start, end) |
| ComplianceJobs.CountByDateSplit | pkg/describe/db/compliance_job.go:16 | counting [start, mid) and [mid, end) separately gives the count of [start, end) |
| ComplianceJobs.ListComplianceJobsByFilters | pkg/describe/db/compliance_job.go:306-332 | a job is listed iff it overlaps the connection IDs, has one of the benchmarks and statuses (an empty list imposes nothing), and was updated at or after the start and, when given, at or before the end; with no filters and no end it is every job updated since the start |
| ComplianceJobs.RunnerCountPositive | pkg/describe/db/compliance_job.go:229 | the runner count of a job is positive iff some runner has it as parent |
| ComplianceJobs.JobsUpdatedSince | pkg/describe/db/compliance_job.go:97 | the kept jobs are no more than the table |
| ComplianceJobs.CleanupKeepsRecentJobs | pkg/describe/db/compliance_job.go:96-103 | a retention cleanup keeps exactly the jobs updated at or after the cutoff, whatever their status |
| ComplianceJobs.CleanupIdempotent | pkg/describe/db/compliance_job.go:96-103 | cleaning up twice with the same cutoff deletes nothing the second time |
| ComplianceJobs.ComplianceDb.constructor | pkg/describe/db/compliance_job.go:13-332 | the database starts with the given job, runner and summarizer tables |
| ComplianceJobs.ComplianceDb.UpdateComplianceJobsTimedOut | pkg/describe/db/compliance_job.go:70-84 | every CREATED, RUNNERS_IN_PROGRESS or SUMMARIZER_IN_PROGRESS job created before the cutoff becomes TIMEOUT with "Job timed out" and a fresh updated_at; every other row is unchanged |
| ComplianceJobs.ComplianceDb.SetJobToRunnersInProgress | pkg/describe/db/compliance_job.go:226-236 | a CREATED job becomes RUNNERS_IN_PROGRESS iff some runner has it as parent; no other field or job changes |
| ComplianceJobs.ComplianceDb.CleanupComplianceJobsOlderThan | pkg/describe/db/compliance_job.go:96-103 | the job table becomes the jobs updated at or after the cutoff, in table order; runners and summarizers are untouched |
| ComplianceJobs.ComplianceDb.ListComplianceJobsWithUnqueuedRunners | pkg/describe/db/compliance_job.go:211-224 | the result is a permutation of exactly the jobs whose runners are not all queued and whose status is CREATED or RUNNERS_IN_PROGRESS |
| ComplianceJobs.Shuffle | pkg/describe/db/compliance_job.go:220-222 | the shuffle keeps the multiset of jobs |
| IntegrationConnection.Validate | services/integration/api/entity/connection.go:31-38 | a lifecycle state is accepted iff it is IN_PROGRESS, ONBOARD or DISABLED; any other state is an error that names it |
| IntegrationConnection.DiscoveredAndArchivedRejected | services/integration/api/entity/connection.go:31-38 | DISCOVERED and ARCHIVED are rejected |
| IntegrationConnection.EnabledAndDiscoveredStates | services/integration/api/entity/connection.go:31-89 | an enabled connection is in a valid state; a discovered one is neither enabled nor valid |
| IntegrationConnection.ValidButNotEnabled | services/integration/api/entity/connection.go:79-85 | DISABLED is the one valid state that is not enabled |
| IntegrationConnection.ViewOf | services/integration/api/entity/connection.go:128-151 | the API view copies ID, provider ID, name, lifecycle and health states, onboard date and credential, and leaves resource count, cost and last inventory unset |
| IntegrationConnection.NewConnectionAsWritten | services/integration/api/entity/connection.go:122-153 | as written the view always has empty metadata, because the length test is made on the map just created |
| IntegrationConnection.NewConnection | services/integration/api/entity/connection.go:122-153 | with the evident intent, stored metadata that decodes is carried into the view, and otherwise the metadata is empty; every other field is as in the view |
| IntegrationConnection.NewConnectionDropsMetadata | services/integration/api/entity/connection.go:123-126 | a connection with non-empty stored metadata loses it as written and keeps it in the corrected view |
| Ec2InstanceCost.WithoutLicense | services/wastage/cost/ec2_instance.go:162-196 | a missing operation reads as ""; a present one maps to one of the three unlicensed operations, each of which maps to itself |
| Ec2InstanceCost.UnlicensedInstance | services/wastage/cost/ec2_instance.go:162 | only the usage operation changes, to its unlicensed counterpart |
| Ec2InstanceCost.OperatingSystem | services/wastage/cost/ec2_instance.go:61-64 | the operating system is the platform, "Linux" when the platform is empty |
| Ec2InstanceCost.BlockDevices | services/wastage/cost/ec2_instance.go:44-52 | the loop panics iff some volume lacks a size or IOPS; otherwise one device per volume, with its ID, type, size and IOPS |
| Ec2InstanceCost.ValuesMap | services/wastage/cost/ec2_instance.go:24-74 | the value map has exactly the six fixed keys, plus tenancy, availability_zone and host_id iff there is a placement and monitoring iff present; instance type, EBS flag, tenancy, zone and host ID are copied; monitoring is false exactly for "disabled"/"disabling"; spot_price is "Spot" iff the lifecycle is spot; the usage carries operating system, operation and 730 hours; ebs_block_device holds, per volume in order, its hashed ID, type, size and IOPS; a volume lacking size or IOPS panics |
| Ec2InstanceCost.EBSValuesMap | services/wastage/cost/ec2_instance.go:115-120 | the volume's value map has exactly the five keys, with availability zone, type, size, IOPS and throughput copied from the volume; a missing zone, size or IOPS panics |
| Ec2InstanceCost.SubmissionCost | services/wastage/cost/ec2_instance.go:91-151 | a request error is returned; a status other than 200 is an error naming the status; otherwise the reply's cost or its error |
| Ec2InstanceCost.EstimateLicensePrice | services/wastage/cost/ec2_instance.go:154-171 | the license price is the cost with the instance's operation minus the cost with its unlicensed operation; the first error is returned |
| Ec2InstanceCost.UnlicensedInstanceHasNoLicensePrice | services/wastage/cost/ec2_instance.go:154-196 | an instance already on an unlicensed operation has license price 0 |
| HttpServerAuth.RoleToPriority | pkg/internal/httpserver/auth.go:69-80 | Viewer has priority 0, Editor 1 and Admin 2; any other role panics, so callers must pass a supported one |
| HttpServerAuth.RoleToPriorityInjective | pkg/internal/httpserver/auth.go:69-80 | distinct supported roles have distinct priorities |
| HttpServerAuth.HasAccessReflexive | pkg/internal/httpserver/auth.go:82-84 | every supported role has access at its own level |
| HttpServerAuth.HasAccessTransitive | pkg/internal/httpserver/auth.go:82-84 | access is transitive |
| HttpServerAuth.HasAccessTotalAntisymmetric | pkg/internal/httpserver/auth.go:82-84 | any two supported roles are comparable, and two roles with access to each other are equal |
| HttpServerAuth.AdminAndViewerAccess | pkg/internal/httpserver/auth.go:82-84 | Admin passes every minimum role; Viewer passes only Viewer |
| HttpServerAuth.GetWorkspaceName | pkg/internal/httpserver/auth.go:37-44 | the header value, and a panic iff the header is missing or blank after trimming |
| HttpServerAuth.GetUserRole | pkg/internal/httpserver/auth.go:46-53 | the role named by the header, and a panic iff the header is missing or blank |
| HttpServerAuth.GetUserID | pkg/internal/httpserver/auth.go:55-67 | a blank header panics; otherwise the parsed UUID, and a parse failure panics |
| HttpServerAuth.RequireMinRole | pkg/internal/httpserver/auth.go:29-35 | the check passes iff the caller's role header names a supported role at least as high as the minimum; a failing check is 403 "missing required permission"; a blank or unsupported role panics |
| HttpServerAuth.AuthorizeHandler | pkg/internal/httpserver/auth.go:19-27 | the wrapped handler's response is produced iff the role check passes; otherwise the 403 error, without calling the handler |
| HttpServerAuth.AuthorizeMonotone | pkg/internal/httpserver/auth.go:19-84 | a request let through at a higher minimum role is also let through at a lower one |
| LoadBalancerCost.Family | pkg/workspace/costestimator/aws/lb.go:12-21 | "network", "gateway" and "classic" select their own families and every other type selects "Load Balancer-Application", each in both directions |
| LoadBalancerCost.LBCostByResource | pkg/workspace/costestimator/aws/lb.go:9-28 | the price of the type's family in the region, for usage "LoadBalancerUsage" and unit "Hrs", times the interval; a lookup error gives (0, err) |
| LoadBalancerCost.FamilyDistinguishesKnownTypes | pkg/workspace/costestimator/aws/lb.go:12-21 | two different types share a family only when neither is a recognised type |
| ProviderSummaryKeys.BaseKeys | pkg/summarizer/es/resource_provider.go:43-168 | three base keys for the service, category, resource-type and trend kinds, four for resource-type trend and two for location; the kind's constant is last, and trend keys hold DescribedAt in base 10 |
| ProviderSummaryKeys.KeysAndIndex | pkg/summarizer/es/resource_provider.go:43-168 | the index is always "provider_summary"; the keys are the base keys, followed by the decimal SummarizeJobID iff the report type ends with "History" |
| ProviderSummaryKeys.ReportTypeKeyIsConstant | pkg/summarizer/es/resource_provider.go:47 | the report-type key is the kind's constant, whatever the record's ReportType says (also lines 74, 95, 118, 143, 162) |
| ProviderSummaryKeys.HistoryKeysIdentifyJob | pkg/summarizer/es/resource_provider.go:49-51 | history documents with equal keys come from the same summarize job, and the last key reads back as that job's ID |
| ProviderSummaryKeys.KindConstantIsNotDigits | pkg/summarizer/es/resource_provider.go:18-23 | no report-type constant is the decimal text of a number |
| ProviderSummaryKeys.KindsDoNotCollide | pkg/summarizer/es/resource_provider.go:43-168 | documents of different kinds never share keys, history documents included: the kind constant ends the base keys, and the extra job ID of a history document is digits, which no kind constant is |
| InventoryRoutes.ConnectionIdFilter | pkg/inventory/http_routes.go:96-121 | neither IDs nor group gives no filter; both is 400; IDs alone are returned as given; a group's lookup error is passed through, an empty group is 400 "connectionGroup has no connections", otherwise the group's IDs; a returned filter is never empty |
| InventoryRoutes.ConnectionScope | pkg/inventory/http_routes.go:517-523 | the filter's answer, except that a filter of more than MaxConns (100) IDs is 400 "too many connections"; a returned filter has 1 to 100 IDs |
| InventoryRoutes.AttachedCount | pkg/inventory/http_routes.go:475-478 | a metric gets a count iff it is indexed with at least minCount resources, and then the count is the indexed one |
| InventoryRoutes.ListAnalyticsMetrics | pkg/inventory/http_routes.go:449-485 | the loop's total is the sum of the attached counts and its list is the listed metrics, in the order of the filtered list |
| InventoryRoutes.ListedMetricsRule | pkg/inventory/http_routes.go:471-481 | a listed metric carries its indexed count exactly when that count reaches minCount; with a positive minCount every listed metric carries one; every metric whose count reaches minCount is listed; with minCount 0 every metric is listed, in order, with its ID, name and attached count |
| InventoryRoutes.TotalIsSumOfListedCounts | pkg/inventory/http_routes.go:471-481 | totalCount is exactly the sum of the counts the listed metrics carry |
| InventoryRoutes.NameLessIrreflexive | pkg/inventory/http_routes.go:658 | no name is before itself in Go's string order |
| InventoryRoutes.NameLessTransitive | pkg/inventory/http_routes.go:658 | Go's string order is transitive |
| InventoryRoutes.NameLessTotal | pkg/inventory/http_routes.go:658 | two different names are ordered one way or the other |
| InventoryRoutes.CountLessRanks | pkg/inventory/http_routes.go:596-658 | the "count" order puts counted metrics before uncounted ones and larger counts first, and orders equal counts by ascending name |
| InventoryRoutes.CountLessIsStrictOrder | pkg/inventory/http_routes.go:596-658 | the "count" order is irreflexive and transitive |
| InventoryRoutes.CountLessTotalOnNames | pkg/inventory/http_routes.go:596-658 | metrics with different names are always ordered one way or the other |
| InventoryRoutes.FirstTagValue | pkg/inventory/http_routes.go:1001-1011 | a metric is counted under the first value of the tag key, and under none when the key has no value |
| InventoryRoutes.CreditAdds | pkg/inventory/http_routes.go:1002-1010 | crediting a value adds exactly the metric's current and old counts to the sums |
| InventoryRoutes.CreditValues | pkg/inventory/http_routes.go:1002-1010 | crediting names the credited value and no other new value |
| InventoryRoutes.CreditDistinct | pkg/inventory/http_routes.go:1002-1010 | crediting keeps the values distinct |
| InventoryRoutes.CompositionValues | pkg/inventory/http_routes.go:1000-1013 | the composition holds each first tag value of the metrics exactly once |
| InventoryRoutes.ValueCounts | pkg/inventory/http_routes.go:997-1013 | the loop builds the composition, and the totals it keeps beside the map are the sums of the map's current and old counts |
| InventoryRoutes.SumOfPermutation | pkg/inventory/http_routes.go:1019-1025 | any reordering of the value counts keeps both sums |
| InventoryRoutes.InsertByCurrentPermutes | pkg/inventory/http_routes.go:1023-1025 | inserting a pair adds exactly that pair to the multiset |
| InventoryRoutes.InsertByCurrentSorts | pkg/inventory/http_routes.go:1023-1025 | inserting into a list in descending count order keeps it descending |
| InventoryRoutes.SortByCurrentSorts | pkg/inventory/http_routes.go:1023-1025 | the sorted pairs are in descending current-count order and a permutation of the input |
| InventoryRoutes.TopSize | pkg/inventory/http_routes.go:1034-1035 | the number of top values is `top` clamped to between 0 and the number of pairs |
| InventoryRoutes.TopAndOthers | pkg/inventory/http_routes.go:1034-1044 | the first `top` pairs are the top values and the rest are summed into others, so the top values plus others account for all current and old counts |
| InventoryRoutes.ListAnalyticsComposition | pkg/inventory/http_routes.go:911-1047 | an empty or private tag key is 400 "tag key is invalid"; otherwise the totals are the sums over all tag-value pairs and equal the top values plus others, the value count is the number of distinct first tag values, and the top values are the first `top` pairs of the descending order: a sub-multiset of the pairs, in descending count order, none smaller than a pair left out |
| InventoryRoutes.TopOfSorted | pkg/inventory/http_routes.go:1019-1040 | sorting the pairs keeps their number and sums, and its first `top` pairs are descending, taken from the pairs, and at least as large as every pair left out |
| InventoryRoutes.TopValuesAreLargest | pkg/inventory/http_routes.go:1027-1040 | in a descending list the first k pairs are at least as large as every later pair, and the later pairs are what is left once the first k are removed |
| InventorySummary.FirstHit | pkg/inventory/summary.go:42-54 | the first hit of a name is one of the hits and carries that name |
| InventorySummary.GroupedIsSumAndFirstHit | pkg/inventory/summary.go:40-55 | the grouping has one group per distinct name; a group's resource count is the sum over the hits of that name, and its other fields are those of the first such hit |
| InventorySummary.GroupByName | pkg/inventory/summary.go:40-55 | the loop's map is the per-name grouping: each name maps to its summed count and its first hit (also lines 87-103, 135-150) |
| InventorySummary.FirstHitIsEarliest | pkg/inventory/summary.go:42-54 | the first hit of a name is the earliest hit carrying it |
| InventorySummary.SumForAppend | pkg/inventory/summary.go:42-44 | the sum for a name splits over any split of the hits |
| InventorySummary.FirstHitOfAppend | pkg/inventory/summary.go:42-54 | appending hits does not change the first hit of a name already present |
| InventorySummary.LaterHitsOnlyAddToCount | pkg/inventory/summary.go:42-53 | later hits add their counts to a group's resource count and leave its last-day, -week, -quarter and -year counts as the first hit set them |
| InventorySummary.AbsentNameSumsToZero | pkg/inventory/summary.go:40-55 | a name absent from the hits sums to zero |
| InventorySummary.ChooseHits | pkg/inventory/summary.go:28-38 | the cached hits are used iff the cache answered without error and with something; otherwise the Elasticsearch answer, error included |
| InventorySummary.GetGrouped | pkg/inventory/summary.go:18-63 | an error iff the chosen source failed, with the Elasticsearch error; otherwise the grouping of the chosen hits (also lines 65-110) |
| InventorySummary.ResourceHitsErrorPersists | pkg/inventory/summary.go:120-133 | once one resource type's fetch fails, the whole collection fails with that error |
| InventorySummary.NonEmptyResources | pkg/inventory/summary.go:152-159 | a resource type is answered iff its summed count is not zero, under its display name |
| InventorySummary.GetResources | pkg/inventory/summary.go:112-161 | an error iff some resource type's fetch failed; otherwise the non-empty groups of all fetched hits |
| KafkaEsSink.LastHeaderWins | pkg/describe/kafka_es_sink.go:116-121 | when several headers carry the index name, the last one's value is the index |
| KafkaEsSink.AbsentHeaderIsEmpty | pkg/describe/kafka_es_sink.go:116-121 | with no index header the index stays empty |
| KafkaEsSink.NewEsResource | pkg/describe/kafka_es_sink.go:114-130 | an error ("missing index header") iff the last index header's value is empty; otherwise the document has that index, the message key as id and the message value as body |
| KafkaEsSink.Sink.constructor | pkg/describe/kafka_es_sink.go:28-37 | a new sink has an empty buffer and has committed nothing |
| KafkaEsSink.Sink.Flush | pkg/describe/kafka_es_sink.go:91-112 | the buffered messages are sent for commit in arrival order and the buffer is emptied; an empty buffer sends nothing |
| KafkaEsSink.Sink.Receive | pkg/describe/kafka_es_sink.go:54-58 | a received message is buffered; once the buffer holds more than 1000 messages it is flushed; every received message is either committed or buffered, in order, with none lost or repeated |
| KafkaEsSink.Sink.Timeout | pkg/describe/kafka_es_sink.go:59-60 | the timer flushes everything, after which all received messages have been sent for commit, in order |
| KafkaEsSink.CommittedIsPrefixOfReceived | pkg/describe/kafka_es_sink.go:51-112 | what the sink has sent for commit is always a prefix of what it received, and the buffer is the rest |
| CompliancePublisher.MessageKeyIdEnd | pkg/describe/schedulers/compliance/publisher.go:99 | in a message key "job-<id>-<retry>" the first dash after "job-" ends the runner ID |
| CompliancePublisher.MessageKeyInjective | pkg/describe/schedulers/compliance/publisher.go:99 | two runner attempts share a queue message key only when they have the same runner ID and the same retry count |
| CompliancePublisher.IndexBy | pkg/describe/schedulers/compliance/publisher.go:19-39 | the connection and query catalog maps hold every element's key, and a repeated key maps to the last element with that key |
| CompliancePublisher.BuildJob | pkg/describe/schedulers/compliance/publisher.go:74-89 | the runner job copies the runner's ID, retry count, parent job, creation time, connection, decoded callers and query; it has a provider connection ID iff the runner has a non-empty connection ID, and that ID is the catalog connection's provider ID |
| CompliancePublisher.JobScheduler.UpdateTimeoutQueuedRunnerJobs | pkg/describe/schedulers/compliance/publisher.go:42-45 | the queued-runner timeout sweep is recorded and applied to the runner table |
| CompliancePublisher.JobScheduler.UpdateTimedOutInProgressRunners | pkg/describe/schedulers/compliance/publisher.go:47-50 | the in-progress-runner timeout sweep is recorded and applied to the runner table |
| CompliancePublisher.JobScheduler.FetchCreatedRunners | pkg/describe/schedulers/compliance/publisher.go:52-56 | the fetch comes right after both sweeps; it fails iff the query fails, and otherwise returns the runners still in CREATED |
| CompliancePublisher.JobScheduler.UpdateRunnerJob | pkg/describe/schedulers/compliance/publisher.go:93-105 | the runner with that ID gets the new status and message, and the call is recorded |
| CompliancePublisher.JobScheduler.RetryFailedRunners | pkg/describe/schedulers/compliance/publisher.go:109-113 | the retry statement's error is returned; without an error, failed runners with retries left go back to CREATED with one more attempt |
| CompliancePublisher.JobScheduler.PublishRunner | pkg/describe/schedulers/compliance/publisher.go:62-106 | a runner with an unknown query or undecodable callers is skipped with nothing changed; a connection ID missing from the catalog panics; a marshal or produce error marks the runner FAILED with that error text; otherwise the job is produced on the job queue under "job-<id>-<retry>" and the runner becomes QUEUED |
| CompliancePublisher.OutcomeOf | pkg/describe/schedulers/compliance/publisher.go:62-105 | a runner is skipped iff its query is not in the catalog or its callers do not decode; otherwise it panics iff its provider connection lookup fails; a queued runner's message goes to the job queue under "job-<id>-<retry>" with the runner's job and catalog query |
| CompliancePublisher.PublishAllOutcome | pkg/describe/schedulers/compliance/publisher.go:62-106 | a batch panics iff some fetched runner's provider connection is missing; otherwise the table keeps its length, every runner carries the outcome recorded last for its ID (QUEUED, FAILED with the error text, or untouched), and the queue receives the queued runners' messages in batch order |
| CompliancePublisher.CrashEndsBatch | pkg/describe/schedulers/compliance/publisher.go:62-76 | once a runner has panicked, the rest of the batch is never looked at |
| CompliancePublisher.PublishAllAddsOnlyUpdates | pkg/describe/schedulers/compliance/publisher.go:62-106 | publishing a batch only appends runner updates to the statement log: it never fetches, sweeps or retries |
| CompliancePublisher.BatchOfFetchesOnce | pkg/describe/schedulers/compliance/publisher.go:41-107 | every iteration of the batch loop issues exactly one fetch |
| CompliancePublisher.LoopFetchCount | pkg/describe/schedulers/compliance/publisher.go:41-107 | the loop issues one fetch per iteration it runs, and at most ten in all |
| CompliancePublisher.EmptyFetchEndsLoop | pkg/describe/schedulers/compliance/publisher.go:52-60 | an empty fetch ends the loop at once, with nothing published and the table as the sweeps left it, after one fetch |
| CompliancePublisher.JobScheduler.PublishBatch | pkg/describe/schedulers/compliance/publisher.go:62-106 | publishing a batch has exactly the effect of the per-runner loop specification on the tables (see PublishAllOutcome); it never fetches or retries, and every message it produces goes to the job queue under its runner's key |
| CompliancePublisher.JobScheduler.OpenBatch | pkg/describe/schedulers/compliance/publisher.go:42-56 | a batch starts with the two timeout sweeps and then the fetch, and the fetched runners are those left in CREATED after both sweeps |
| CompliancePublisher.JobScheduler.BatchStep | pkg/describe/schedulers/compliance/publisher.go:41-107 | one iteration has exactly the effect of the batch specification: the two sweeps, one fetch, then nothing more after a failed fetch (next iteration) or an empty one (end of the loop), else the batch is published |
| CompliancePublisher.JobScheduler.RunBatches | pkg/describe/schedulers/compliance/publisher.go:41-107 | the batch loop has exactly the effect of the batch-loop specification: at most ten iterations, ending early at an empty fetch or a panic; it never retries, and every message it produces is well keyed |
| CompliancePublisher.JobScheduler.RunPublisher | pkg/describe/schedulers/compliance/publisher.go:15-116 | a catalog error is returned before anything changes; otherwise the run has the effect of the batch-loop specification over the catalog maps: it panics iff the loop does, and a run that finishes retries the failed runners once, as its last statement, and returns that error; at most ten fetches happen; every produced message is well keyed |
| CompliancePublisher.SweepTimedOut | pkg/describe/schedulers/compliance/publisher.go:42-50 | a timeout sweep keeps the number of runners |
| CompliancePublisher.WithRunnerStatus | pkg/describe/schedulers/compliance/publisher.go:93-105 | a status update keeps the number of runners |
| CompliancePublisher.RetriedRunners | pkg/describe/schedulers/compliance/publisher.go:109 | the retry keeps the number of runners |
| CompliancePublisher.RetryKeepsDoneRunners | pkg/describe/schedulers/compliance/publisher.go:109 | the retry never touches a runner that is done (succeeded, or failed with no retries left) |
| CompliancePublisher.RetryBoundsAttempts | pkg/describe/schedulers/compliance/publisher.go:109 | a retried runner's attempt count stays within the limit of three |
| CompliancePublisher.CreatedRunners | pkg/describe/schedulers/compliance/publisher.go:52 | the fetched runners are exactly the table's runners in CREATED: each is a CREATED runner of the table and every CREATED runner of the table is among them |
| CompliancePublisher.CreatedRunnersSnoc | pkg/describe/schedulers/compliance/publisher.go:52 | the fetch keeps table order: one more row adds that row at the end iff it is CREATED |
| CompliancePublisher.JobScheduler.constructor | pkg/describe/schedulers/compliance/publisher.go:15-116 | a scheduler starts from a runner table with nothing produced and no statement issued |
| RdsProducts.ZeroFields | services/wastage/db/model/rds_products.go:7-54 | a zero RDS product has exactly the 43 recognised fields, all empty |
| RdsProducts.PopulatedFields | services/wastage/db/model/rds_products.go:56-147 | the row access fails only for a recognised column mapped outside the row; otherwise each recognised field named in the column map takes the row value at the mapped position, every other field keeps its value, and no field is added |
| RdsProducts.RdsProduct.constructor | services/wastage/db/model/rds_products.go:7-54 | a new product has every field empty |
| RdsProducts.RdsProduct.PopulateFromMap | services/wastage/db/model/rds_products.go:56-147 | panics iff some recognised column in the map points outside the row, whatever the map's iteration order; otherwise the fields become the populated fields; on a panic each field holds its old value or its row value |
| RdsProducts.RdsProduct.SetColumns | services/wastage/db/model/rds_products.go:57-146 | the column loop keeps the set of fields and has the outcome PopulateFromMap states |
| Reporter.BuildListQuery | pkg/reporter/job.go:234-236 | the list query is the SELECT prefix naming the table, then exactly the account ID, then a closing quote, and nothing else |
| Reporter.BuildGetQuery | pkg/reporter/job.go:238-246 | the get query is the list query, a space, and one " AND <field> = $k" condition per key field, numbered from 1 in key-field order |
| Reporter.KeyClausesSnoc | pkg/reporter/job.go:241-244 | one more key field appends one more condition, whose placeholder number is one past the previous fields |
| Reporter.KeyClauseOfField | pkg/reporter/job.go:238-246 | the i-th key field is compared with placeholder $(i+1), after the conditions of the fields before it and before those after it |
| Reporter.KeyClausesAppend | pkg/reporter/job.go:241-244 | the conditions of two lists of fields are those of the first followed by those of the second, numbered on |
| Reporter.GetQueryWithoutKeys | pkg/reporter/job.go:238-246 | with no key fields the get query is the list query followed by a space |
| Reporter.KeyFields | pkg/reporter/job.go:119-138 | a column name is a key field iff it is arn, akas, id, name or title, and there are no more key fields than columns |
| Reporter.KeyFieldsAreKeyColumnsInOrder | pkg/reporter/job.go:119-138 | the key fields are exactly the key-named columns, in column order, repeats included |
| Reporter.KeyFieldsOfColumn | pkg/reporter/job.go:122-136 | the five name tests add a column's name iff it is one of the key names |
| Reporter.CollectKeyFields | pkg/reporter/job.go:119-138 | the column loop returns exactly KeyFields, so the key-named columns in column order |
| Reporter.RowRecord | pkg/reporter/job.go:120-137 | the row record holds one entry per column name |
| Reporter.RowRecordLastWins | pkg/reporter/job.go:120-137 | a column that no later column repeats has its own row value in the record, so a repeated name holds the value of its last column |
| Reporter.LastIndexOf | pkg/reporter/job.go:120-137 | a column name in the row has a last position, which holds that name and is not repeated later |
| Reporter.KeyValues | pkg/reporter/job.go:142-145 | one value per key field, in key-field order: the record's value, or nil when the record lacks the field |
| Reporter.KeyValuesComeFromRow | pkg/reporter/job.go:119-149 | every key field is a column, and placeholder $(i+1) gets the row's value at the last column named by the i-th key field |
| ComplianceRunnerService.ProcessMessage | pkg/compliance/runner/service.go:154-197 | every message is committed and never requeued; an undecodable message returns the decode error and publishes nothing; otherwise the error is the job's error, and a result is published iff it encodes: it carries the job and start time, FAILED with the job's error text when the job failed, SUCCEEDED with an empty error and the finding count when it succeeded |
| ComplianceRunnerService.Acknowledgements | pkg/compliance/runner/service.go:123-134 | a nak is sent iff requeue is asked for and an ack iff commit is |
| ComplianceRunnerService.HandleMessage | pkg/compliance/runner/service.go:111-138 | every delivery of a job-queue message is acked exactly once and never nak'd, and a result is published only for a decodable job whose result encodes |
| SteampipeColumns.SourceTypeByResourceType | pkg/steampipe/es_column.go:234-240 | a resource type is AWS iff its lower-cased name starts with "aws", and Azure otherwise |
| SteampipeColumns.QuoteCountAppend | pkg/steampipe/es_column.go:257-264 | the quote count of a concatenation is the sum of the counts of its parts |
| SteampipeColumns.KeyStartUnique | pkg/steampipe/es_column.go:255-264 | at most one position is the second quote counting back from the pattern |
| SteampipeColumns.KeyStart | pkg/steampipe/es_column.go:255-264 | the member start is that second quote when there is one, and otherwise the position just before the pattern |
| SteampipeColumns.QuoteCountOfSuffix | pkg/steampipe/es_column.go:257-264 | a suffix holds no more quotes than the whole text |
| SteampipeColumns.ScanKeyStart | pkg/steampipe/es_column.go:255-264 | the backward quote scan finds the member start |
| SteampipeColumns.StripStep | pkg/steampipe/es_column.go:255-271 | one rewrite fails (index out of range) iff the member starts at position 0, or no comma precedes it and the pattern ends the text; otherwise it removes the member from its key's quote through the pattern together with the comma before the key when there is one, else with the comma after the pattern when there is one, else alone, so the text gets shorter by more than the pattern's length |
| SteampipeColumns.StripAll | pkg/steampipe/es_column.go:249-272 | when the rewrite succeeds its result contains no empty time value and is no longer than the input; text without one is unchanged |
| SteampipeColumns.StripOnce | pkg/steampipe/es_column.go:255-271 | one pass of the loop performs the rewrite step |
| SteampipeColumns.StripEmptyTimes | pkg/steampipe/es_column.go:248-272 | the loop ends, computes the whole rewrite, and leaves no empty time value |
| InventorySummarizerScheduler.ShouldScheduleMonotone | pkg/describe/scheduler_inventory_summarizer.go:25 | once the last job is old enough to schedule again, it stays so at every later time |
| InventorySummarizerScheduler.RecentJobBlocks | pkg/describe/scheduler_inventory_summarizer.go:25 | a job created no more than the interval before now blocks scheduling |
| InventorySummarizerScheduler.NewMustSummarizerJob | pkg/describe/scheduler_inventory_summarizer.go:126-134 | a new must-summarize job is in progress, of the must-summarize type, with the given schedule job and no failure message |
| InventorySummarizerScheduler.OngoingCount | pkg/describe/scheduler_inventory_summarizer.go:35-43 | no ongoing job is counted iff no job in the table is an in-progress must-summarize job |
| InventorySummarizerScheduler.OngoingCountSnoc | pkg/describe/scheduler_inventory_summarizer.go:43-49 | adding a job adds one to the ongoing count iff the job is ongoing |
| InventorySummarizerScheduler.NextId | pkg/describe/scheduler_inventory_summarizer.go:49 | the ID the database assigns is larger than every ID in the table |
| InventorySummarizerScheduler.ResourceJobFor | pkg/describe/scheduler_inventory_summarizer.go:81-118 | the published message names the job and has the must-summarize type, and its last-day, last-week, last-quarter and last-year IDs are the schedule jobs found 1, 7, 93 and 428 days back, or 0 where none was found |
| InventorySummarizerScheduler.ResourceJobUsesFourLookbacks | pkg/describe/scheduler_inventory_summarizer.go:80-124 | the four lookbacks are 1, 7, 93 and 428 days, each a whole number of days before now |
| InventorySummarizerScheduler.EnqueueError | pkg/describe/scheduler_inventory_summarizer.go:80-124 | enqueueing succeeds iff all four lookbacks (1, 7, 93 and 428 days) and the publish succeed |
| InventorySummarizerScheduler.SummarizerScheduler.constructor | pkg/describe/scheduler_inventory_summarizer.go:34-78 | a scheduler starts from a job table with at most one ongoing must-summarize job and an empty queue |
| InventorySummarizerScheduler.SummarizerScheduler.EnqueueMustSummarizerJobs | pkg/describe/scheduler_inventory_summarizer.go:80-124 | the first failing lookback, else the publish error, is returned; the message is published iff none fails |
| InventorySummarizerScheduler.SummarizerScheduler.CreateAndEnqueue | pkg/describe/scheduler_inventory_summarizer.go:34-73 | a read error, an ongoing job or an add error stops before anything is queued, with the ongoing-job message in the second case; otherwise the new job is added and enqueued, and a failed enqueue marks it FAILED unless that update fails; at most one must-summarize job is ever ongoing |
| InventorySummarizerScheduler.SummarizerScheduler.ScheduleMustSummarizerJobAsWritten | pkg/describe/scheduler_inventory_summarizer.go:34-78 | as written: when the enqueue fails and the status update succeeds, no error is returned and nothing was queued |
| InventorySummarizerScheduler.SummarizerScheduler.ScheduleMustSummarizerJob | pkg/describe/scheduler_inventory_summarizer.go:34-78 | no error iff there was no read error, no ongoing job, no add error and no enqueue error, and then exactly one new job and one message were added; an error queues nothing; a read error, an ongoing job or an add error leaves the table unchanged; a failed enqueue leaves the new job in the table as FAILED, or IN_PROGRESS when the status update fails too |
| InventorySummarizerScheduler.EnqueueFailureReportedAsSuccess | pkg/describe/scheduler_inventory_summarizer.go:59-75 | on an empty table with a failing lookback and a succeeding status update, the as-written method reports no error |
| VirtualMachineCost.ScanUpTo | pkg/cost-estimator/calculator/virtualmachine.go:59-89 | the item chosen after the first n items is one of them |
| VirtualMachineCost.ScanInvariant | pkg/cost-estimator/calculator/virtualmachine.go:66-89 | over the first n items the loop fails iff a considered item's date does not parse; otherwise every considered year is at most the latest year, which is 1 when nothing is chosen, and the chosen item is considered, has the latest year, later than 1, and is preceded only by considered items of earlier years |
| VirtualMachineCost.GiveProperCostTime | pkg/cost-estimator/calculator/virtualmachine.go:58-92 | the loop returns the proper price item (an error at the first unparsable considered date) |
| VirtualMachineCost.ScanErrorPersists | pkg/cost-estimator/calculator/virtualmachine.go:80-83 | once a considered date fails to parse, the outcome is that error whatever follows |
| VirtualMachineCost.ProperCostItemIsLatest | pkg/cost-estimator/calculator/virtualmachine.go:58-92 | the zero item is returned iff no considered item is later than year 1; otherwise the returned item is a considered item of the latest year, and the first one of that year |
| VirtualMachineCost.OtherItemsAreNotParsed | pkg/cost-estimator/calculator/virtualmachine.go:69-78 | the dates of items for the other operating system never affect the outcome |
| WastageIngestion.ColumnPositionsLastWins | services/wastage/ingestion/service.go:523-530 | the column map holds exactly the header's names, each mapped to a position holding that name, and a repeated name to its last position |
| WastageIngestion.ReadColumnPositions | services/wastage/ingestion/service.go:524-530 | the loop builds the column map |
| WastageIngestion.FindHeaderFrom | services/wastage/ingestion/service.go:199-210 | the header is the first record with more than two fields, every record before it has at most two, the column map is built from it and the rows start right after it; otherwise the error is io.EOF after only short records, or the first read error (also lines 396-407) |
| WastageIngestion.ReadHeader | services/wastage/ingestion/service.go:199-210 | the loop returns the first record with more than two fields as the header, or the error that ended the stream first (also lines 396-407) |
| WastageIngestion.RouteRdsProduct | services/wastage/ingestion/service.go:472-488 | an RDS product row panics iff a recognised column points outside the row; otherwise the populated product is kept iff its term type is OnDemand and its location type is not AWS Outposts, and skipped otherwise |
| WastageIngestion.Route | services/wastage/ingestion/service.go:231-266 | a row panics iff its product-family column is outside it or the record population its family calls panics; otherwise the record its family populates is kept iff it passes its table's filter, and a kept record is that record and belongs to the price list being ingested; in the EC2 list, a family that is neither compute nor EBS is skipped (also lines 438-489) |
| WastageIngestion.RowYield | services/wastage/ingestion/service.go:240-266 | one read yields one record iff it is a row that is routed to Keep, and that record is the kept one; otherwise nothing (also lines 448-489) |
| WastageIngestion.StepRow | services/wastage/ingestion/service.go:222-267 | one read appends exactly what it yields, so a kept record is appended and anything else leaves the created records unchanged; reading goes on iff the read succeeded and the row did not panic; a read error stops with that error (also lines 429-490) |
| WastageIngestion.IngestRows | services/wastage/ingestion/service.go:222-267 | every created record passed its filter, and there are no more records than rows (also lines 429-490) |
| WastageIngestion.CreatedFrom | services/wastage/ingestion/service.go:222-267 | the records the reads yield, in read order, are no more than the reads (also lines 429-490) |
| WastageIngestion.CreatedFromMembers | services/wastage/ingestion/service.go:231-266 | a record is among those yielded iff some read is a row routed to keep it |
| WastageIngestion.CreatedFromSnoc | services/wastage/ingestion/service.go:222-267 | one more read appends what it yields, after what the earlier reads yielded |
| WastageIngestion.GoodPrefix | services/wastage/ingestion/service.go:222-229 | the count of leading reads that are good rows is at most the number of reads (also lines 429-436) |
| WastageIngestion.GoodPrefixIsFirstBad | services/wastage/ingestion/service.go:222-229 | every read before the good prefix's end is a good row, and the read at its end is not (also lines 429-436) |
| WastageIngestion.StopIffBadRow | services/wastage/ingestion/service.go:222-229 | ingestion reaches io.EOF iff every read is in the good prefix (also lines 429-436) |
| WastageIngestion.IngestRowsCreatesKeptRows | services/wastage/ingestion/service.go:222-267 | the created records are exactly the kept records of the reads before the first bad one, in stream order (also lines 429-490) |
| WastageIngestion.StopPersists | services/wastage/ingestion/service.go:224-228 | once reading stops, later rows change nothing (also lines 431-435) |
| WastageIngestion.ReachesEofIffAllRowsGood | services/wastage/ingestion/service.go:222-229 | ingestion reaches io.EOF iff every row is read and routed without a panic (also lines 429-436) |
| WastageIngestion.StopsAtFirstBadRow | services/wastage/ingestion/service.go:222-229 | a stopped ingestion stopped at the first bad row, with that read error or a panic (also lines 429-436) |
| WastageIngestion.CreatedGrowsByPrefix | services/wastage/ingestion/service.go:247 | records are created as rows arrive: what a prefix of the stream created stays created (also lines 262, 449, 467, 485) |
| WastageIngestion.IngestRowsLoop | services/wastage/ingestion/service.go:222-267 | the loop creates exactly the records of the row-by-row ingestion and stops where it stops (also lines 429-490) |
| WastageIngestion.IngestPriceList | services/wastage/ingestion/service.go:172-290 | a price list is ingested as its header followed by its rows; the records created are exactly the kept records of the rows before the first bad one, in stream order, and each passed its filter (also lines 362-496) |
| WastageIngestion.LastOfType | services/wastage/ingestion/service.go:69-79 | the record kept for a data type is a listed record of that type |
| WastageIngestion.LastRecordOfTypeIsKept | services/wastage/ingestion/service.go:71-79 | the last listed record of a type is the one kept |
| WastageIngestion.AbsentTypeIsMissing | services/wastage/ingestion/service.go:69-79 | with no record of a type, none is kept |
| WastageIngestion.FindDataAges | services/wastage/ingestion/service.go:69-79 | the scan keeps the last EC2 and the last RDS record |
| WastageIngestion.RefreshData | services/wastage/ingestion/service.go:81-139 | a price list is left alone iff its record exists and is recent; otherwise an ingestion error is returned, or else a record with the current time is created when missing and updated when present, and a write error is returned |
| WastageIngestion.RefreshedRecordIsFresh | services/wastage/ingestion/service.go:81-111 | a refreshed record stays up to date for the whole maximum age after the refresh |
| WastageIngestion.Tick | services/wastage/ingestion/service.go:60-140 | EC2 is checked against 365 days first; a failure there ends the pass before RDS, which is otherwise checked against 7 days |
| ComplianceWorker.RecordValueKeys | pkg/compliance/worker/job.go:188-192 | a record's value map has exactly the headers as keys |
| ComplianceWorker.RecordValueLastWins | pkg/compliance/worker/job.go:188-192 | a header maps to the cell of its last column |
| ComplianceWorker.StringField | pkg/compliance/worker/job.go:194-212 | a field is the record's string under that name, or empty when the name is missing or its value is not a string |
| ComplianceWorker.FindingIdInjective | pkg/compliance/worker/job.go:215 | within one policy and one schedule job, two findings with the same ID have the same resource ID |
| ComplianceWorker.FindingOf | pkg/compliance/worker/job.go:214-233 | a finding's ID is "<resource>-<policy>-<schedule job>", and it carries the policy's ID and severity and the job's IDs, connection, connector and benchmark |
| ComplianceWorker.FirstBadRecord | pkg/compliance/worker/job.go:184-187 | the first record whose length differs from the header count, every record before it having the header count |
| ComplianceWorker.RecordFindings | pkg/compliance/worker/job.go:183-235 | one finding per record, each for the policy |
| ComplianceWorker.RecordFindingsAt | pkg/compliance/worker/job.go:183-235 | the i-th finding is built from the i-th record |
| ComplianceWorker.Findings | pkg/compliance/worker/job.go:182-236 | the extraction fails iff some record's length differs from the header count, and otherwise yields one finding per record |
| ComplianceWorker.FindingsPerRecord | pkg/compliance/worker/job.go:182-236 | the i-th finding holds the resource, name, resource type, location, reason and status strings of the i-th record |
| ComplianceWorker.FindingsErrorIsFirstBadRecord | pkg/compliance/worker/job.go:184-187 | the error names the lengths of the first record of the wrong length and of the headers |
| ComplianceWorker.BuildRecordValue | pkg/compliance/worker/job.go:188-192 | the header loop builds the record's value map |
| ComplianceWorker.RecordFinding | pkg/compliance/worker/job.go:188-233 | the finding of one record |
| ComplianceWorker.CollectFindings | pkg/compliance/worker/job.go:183-235 | the record loop stops at the first record of the wrong length, having built the findings of every record before it |
| ComplianceWorker.ExtractFindings | pkg/compliance/worker/job.go:182-236 | the method returns the extraction's findings or its error |
| ComplianceWorker.AllFromMatchingPoliciesAppend | pkg/compliance/worker/job.go:86-127 | appending findings that all come from matching policies keeps that true |
| ComplianceWorker.RunBenchmark | pkg/compliance/worker/job.go:69-130 | every finding of a benchmark evaluation comes from a catalog policy whose query targets the connection's connector; a successful evaluation is the benchmark's children's findings followed by its policies' findings |
| ComplianceWorker.RunChildren | pkg/compliance/worker/job.go:80-87 | the same holds for the findings of the child benchmarks |
| ComplianceWorker.RunChildrenSingle | pkg/compliance/worker/job.go:80-87 | the child loop over one child is that child's evaluation |
| ComplianceWorker.RunChildrenCons | pkg/compliance/worker/job.go:80-87 | the child loop succeeds iff its first child and the rest succeed, and then yields the first child's findings followed by the rest's |
| ComplianceWorker.RunChildrenAppend | pkg/compliance/worker/job.go:80-87 | the child loop over a + b succeeds iff it succeeds over a and over b, and its findings are those of a followed by those of b, so findings come in child order |
| ComplianceWorker.RunPolicies | pkg/compliance/worker/job.go:89-128 | every finding of the benchmark's own policies comes from a catalog policy whose query targets the connector; a nil query result panics |
| ComplianceWorker.RunPoliciesCons | pkg/compliance/worker/job.go:89-128 | for a first policy with a catalog query on the connector and a query result, the policy loop succeeds iff that result's findings are extracted and the rest succeed, and then yields those findings followed by the rest's; an extraction error fails the loop with that error |
| ComplianceWorker.PolicyWithoutQuerySkipped | pkg/compliance/worker/job.go:95-97 | a policy without a query adds no findings and no error |
| ComplianceWorker.ConnectorMismatchAborts | pkg/compliance/worker/job.go:104-106 | a policy whose query targets another connector fails the evaluation with "connector doesn't match" |
| ComplianceWorker.NilQueryResultPanics | pkg/compliance/worker/job.go:109-126 | a nil query result with no error reaches ExtractFindings, which dereferences it and panics |
| ComplianceWorker.FailingChildAborts | pkg/compliance/worker/job.go:80-84 | a failing child benchmark fails its parent, whatever its siblings do |
| ComplianceWorker.RunAsWritten | pkg/compliance/worker/job.go:132-180 | as written: a setup error (onboard lookup, unhealthy connection, steampipe configuration or connection) is returned; afterwards Run panics iff the evaluation panics, and otherwise only the send decides the outcome |
| ComplianceWorker.Run | pkg/compliance/worker/job.go:132-180 | corrected: a setup error is returned; otherwise Run panics iff the evaluation panics, returns the evaluation's error, or the error of sending its findings |
| ComplianceWorker.Do | pkg/compliance/worker/job.go:45-67 | the job result is Completed with no error iff Run succeeds, and otherwise CompletedWithFailure with Run's error text |
| ComplianceWorker.FailedBenchmarkIsReported | pkg/compliance/worker/job.go:173-179 | with the corrected Run, a failing benchmark evaluation is never reported as Completed |
| ComplianceWorker.RunAsWrittenHidesBenchmarkError | pkg/compliance/worker/job.go:173-179 | as written, a benchmark whose policy targets another connector is reported as Completed |

## Left out

- Database plumbing: GORM and SQL errors of the statements, `AutoMigrate`, and the repositories' `Create`, `Truncate`, `MoveViewTransaction` and `RemoveOldTables` errors. The compliance statements are modelled on the tables' contents; ingestion treats a repository write as always succeeding.
- The runner-table statements the publisher calls (`FetchCreatedRunners`, `UpdateRunnerJob`, `RetryFailedRunners`, the two timeout sweeps) are not part of this model. They are abstract operations whose effect is an assumption: for example, a failed runner with retries left goes back to CREATED with one more attempt.
- CompliancePublisher.SweepTimedOut, CompliancePublisher.WithRunnerStatus, CompliancePublisher.RetriedRunners: only their lengths are stated, because the statements they stand for are not part of this model.
- Concurrency:
  - the goroutines and channels of the Kafka sink, which are run sequentially with the commit channel as an output sequence;
  - the runner's consumer goroutines and busy loop;
  - the tickers and timers of the alerting, summarizer and ingestion schedulers. Only one pass of each loop body is modelled.
- Ingestion `Start`: the sleeps, the `recover` and restart, and the timer are left out. The timer is created with `time.NewTimer`, so in the source the loop body can run only once. `Tick` models that one pass.
- Floating point: prices, the load-balancer `price * interval` product and `EstimateLicensePrice` are reals with exact arithmetic. The growth-rate comparators and spend totals of the inventory routes are left out.
- JSON encoding and decoding is a parameter wherever it can fail: job, result and caller encoding, connection metadata, and the EC2 cost request's marshal error. The description-map lookup and the unmarshal step of `ConvertToDescription` depend on plugin types and are not modelled.
- The Elasticsearch send of the Kafka sink is commented out in the source and is not modelled. `newEsResourceFromKafkaMessage` takes the index header's name as a parameter, because its value comes from a package outside this model.
- `PopulateFromMap` of `EC2InstanceType`, `EBSVolumeType`, `RDSDBInstance` and `RDSDBStorage` is not part of this model. Each is an oracle that yields only the fields the ingestion filters read, or `None` where it panics; `DoIngest` is reduced to its verdict.
- `ingestEc2InstancesExtra`, `getEc2InstanceExtrasMap` and the HTTP download of the price lists are left out. A price list is a sequence of CSV reads.
- `strings.ToLower` is modelled on ASCII letters only, and the white-space test of `strings.TrimSpace` on the Latin-1 range only.
- Role names belong to the auth API package, which is not part of this model. A header's text becomes a role through a parameter, and `roleToPriority` requires a supported role, because the source panics on any other.
- HttpServerAuth.RoleToPriority: requires a supported role, instead of modelling the panic on an unsupported one.
- HttpServerAuth.HeaderGet: the header map's keys are canonical header names; the case-insensitive canonicalisation of Go's Header.Get is not modelled.
- AuthRoutes.InviteGuard / AuthRoutes.InvitedAccess: the invite handler's calls after its guards (pkg/auth/http.go:541-579) are not composed into one operation: SearchByEmail and PatchUserAppMetadata for an existing user, CreateUser and CreatePasswordChangeTicket for a new one, and the invitation e-mail go to the Auth0 and e-mail services, which are not part of this model. Only the guards and the access map written for an existing user are modelled, so the new-user path and the error returns of those calls are not.
- The literal values of the alert condition types ("AND" and "OR") and of the private tag prefix come from packages outside this model. The first are constants of the model; the prefix is a parameter.
- ComplianceWorker.RunBenchmark: requires a ranking of the benchmark catalog under which every child ranks below its parent. On a cyclic catalog the source recurses without end.
- Inventory routes: `RoleDetails`, the merge of old counts, pagination and the spend and growth orderings are left out. The "count" order is proved a strict order, and the descending-count sort of the composition is an insertion sort. `sort.Slice` is not stable, so it may order equal counts differently.
- The reporter's `pgx` row is required to have one value per column, as the driver guarantees. `RandomAccount` and `RandomTableName` draw random choices and are left out.
- `es.Finding` is modelled without `ServiceName` and `Category`, which come from a cloud-service table that is not part of this model.
- The remaining functions of `compliance_job.go` (create, update, get and list by ID) are plain row accesses and are left out. The shuffle of the unqueued-runner listing is modelled only as a permutation.

## Findings

| source | as written | input that shows it | evidently intended | confidence | as-written member | corrected member |
|---|---|---|---|---|---|---|
| pkg/compliance/worker/job.go:173-179 | the error of `RunBenchmark` is overwritten by the Kafka send's result | a benchmark whose policy's query targets another connector: `RunBenchmark` fails, nothing is sent, and the job is reported Completed | return the benchmark's error, so `Do` reports CompletedWithFailure | high (not executed) | ComplianceWorker.RunAsWrittenHidesBenchmarkError | ComplianceWorker.FailedBenchmarkIsReported |
| pkg/describe/scheduler_inventory_summarizer.go:66-74 | after a failed enqueue, the status update's error replaces the enqueue error | a failing lookback with a succeeding status update: nothing is queued and nil is returned | return the enqueue error | high (not executed) | InventorySummarizerScheduler.EnqueueFailureReportedAsSuccess | InventorySummarizerScheduler.SummarizerScheduler.ScheduleMustSummarizerJob |
| pkg/alerting/scheduler.go:357-359 | the inner loop over a group nested in an OR list is bounded by `len(ConditionType)`, the length of the type string | an OR list holding one AND group with a single true comparison: the loop indexes operand 1 and panics | bound the loop by the number of operands, as the AND list does at line 269 | high (not executed) | Alerting.OrBoundByTypeLengthPanics | Alerting.OrGroupInOrList |
| services/integration/api/entity/connection.go:123-126 | the length test is made on the map just created, so stored metadata is never decoded | a stored connection whose metadata is `{"a":"b"}`: the view has empty metadata | decode the stored metadata when it is non-empty | high (not executed) | IntegrationConnection.NewConnectionDropsMetadata | IntegrationConnection.NewConnection |
