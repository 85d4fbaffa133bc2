# PagerDuty Terraform provider: reconciliation of three resources

A Dafny model of how the PagerDuty Terraform provider reconciles local
resource state with the PagerDuty REST API. It covers three pieces:

- the `pagerduty_service_integration` resource: building the request, with
  its e-mail check, create (retried on HTTP 400), read, update, delete and
  import of `<service_id>.<integration_id>`;
- the `pagerduty_addon` resource: the same lifecycle, but the install call
  is not retried;
- the `pagerduty_schedule` data source: a retried listing by name (HTTP 429
  is retried) and the scan for the first exact match.

How the model is built:

- `Sdk.ResourceData` is a class holding `id` and a `map<string, string>` of
  attributes. The resource operations are methods that update it in place
  through `Set` and `SetId`, as the Go functions update `*schema.ResourceData`.
  An unset attribute reads as `""`, so `d.GetOk(k)` succeeds exactly when the
  value is not empty.
- The PagerDuty client is an oracle. `Sdk.Oracle(reply, retries)` gives the
  service's answer to each attempt of a retried call. `retries` is how many
  attempts after the first fit in the `resource.Retry` window. A call made
  only once takes a single reply.
- Every operation also returns `calls`, the client requests it issued, in
  order. This lets the contracts state which request was sent, and that
  none was sent.
- Each retry loop is a method with a `while` loop. It is proved equal to a
  recursive function: `FetchRun`, `CreateRetryRun` or `ScheduleRun`. The
  lemmas state the properties of those functions for every reply sequence
  and every window size.
- The error callbacks are parameters of type `Sdk.Callback`. Given the
  client's error and the resource ID, a callback returns an error (to keep
  retrying) or none (to end the read successfully), plus the ID it leaves
  on the resource. Create passes `genError` and Read passes
  `handleNotFoundError`. Their definitions are not part of this model.
- `isErrCode(err, n)` is modelled as `Sdk.IsErrCode`: the error is a client
  error with HTTP status `n`.

The model follows the code in these points, where a reader might expect
other behaviour:

- Delete returns every client error, including "not found", and then keeps
  the ID. It does not treat an already-deleted resource as a success.
- Reading a deleted resource clears the ID only if the `handleNotFoundError`
  callback does so. That callback is not part of this model.
- The schedule lookup does not report several matches as an error. It takes
  the first exact match.
- Only the schedule listing treats HTTP 429 as retryable. Create retries on
  400, and the reads retry whatever the callback returns.

## Model

| member | source | states |
|---|---|---|
| `ServiceIntegration.PlanCheck` | pagerduty/resource_pagerduty_service_integration.go:26-31 | The plan-time check refuses exactly when all three hold: the type is `generic_email_inbound_integration`, the e-mail is empty, and its new value is known. It then returns the fixed message. |
| `ServiceIntegration.PlanCheckAgreesWithBuild` | pagerduty/resource_pagerduty_service_integration.go:26-31 | When the e-mail is known, the plan-time check refuses exactly the local states that building the request refuses. |
| `ServiceIntegration.Build` | pagerduty/resource_pagerduty_service_integration.go:90-124 | The build fails exactly when the resolved type is the generic e-mail type and the e-mail is empty. Otherwise the type is `service_integration` unless `type` is set. The service reference is `("service", service)`. The vendor reference `("vendor", vendor)` is present exactly when `vendor` is set. Name, key and e-mail follow the local state. |
| `ServiceIntegration.WriteBack` | pagerduty/resource_pagerduty_service_integration.go:145-166 | `name` and `type` are always overwritten. `service` and `vendor` are written only when the remote reference is present. Key, e-mail and `html_url` are written only when the remote value is not empty. No other attribute changes. |
| `ServiceIntegration.RebuildAfterEcho` | pagerduty/resource_pagerduty_service_integration.go:90-166 | Suppose a read returns exactly the request that was built. Building again from the written-back state gives the same request. |
| `ServiceIntegration.ApplyFetched` | pagerduty/resource_pagerduty_service_integration.go:145-166 | The conditional `d.Set` calls leave `d`'s attributes equal to `WriteBack` and leave the ID unchanged. |
| `ServiceIntegration.FetchOnce` | pagerduty/resource_pagerduty_service_integration.go:133-168 | One read attempt. On a client error the callback decides: an error is retryable, none ends the loop with no attribute written. On success the integration is written back. |
| `ServiceIntegration.Fetch` | pagerduty/resource_pagerduty_service_integration.go:126-170 | The retried read returns what `FetchRun` returns for the `service` read before the loop. It issues the same calls and leaves the same state. |
| `ServiceIntegration.FetchFrame` | pagerduty/resource_pagerduty_service_integration.go:145-166 | A read never changes an attribute outside the seven it writes, whatever the replies. |
| `ServiceIntegration.FetchFailsOnlyWhenExhausted` | pagerduty/resource_pagerduty_service_integration.go:132-143 | A read makes 1 to retries+1 calls, each fetching an integration of the same service. It fails only after using every attempt, each answered by a client error. |
| `ServiceIntegration.FetchLastAttempt` | pagerduty/resource_pagerduty_service_integration.go:132-166 | A read makes at least one call. It leaves the attributes its last reply leaves, starting from the attributes it began with, because every earlier attempt was an error and wrote nothing. A failed read ended on an error. |
| `ServiceIntegration.FetchOutcome` | pagerduty/resource_pagerduty_service_integration.go:132-166 | A failed read leaves the attributes as they were. A successful read leaves the write-back of its last reply, where an empty or missing remote value keeps the local one. If the callback swallowed the last reply's error, nothing is written. |
| `ServiceIntegration.SwallowedErrorEndsFetch` | pagerduty/resource_pagerduty_service_integration.go:134-143 | Suppose the callback maps the client's error to nil. The read then ends at once, successfully, after one call, with only the callback's change to the ID. |
| `ServiceIntegration.HardFailSurfaces` | pagerduty/resource_pagerduty_service_integration.go:134-143 | Suppose the callback never maps an error to nil and every reply is an error. The read then fails and writes no attribute. |
| `ServiceIntegration.CreateOnce` | pagerduty/resource_pagerduty_service_integration.go:185-195 | One create attempt. HTTP 400 is retryable and any other error is not. A returned integration sets the ID. A nil one leaves the ID as it was. |
| `ServiceIntegration.CreateWithRetry` | pagerduty/resource_pagerduty_service_integration.go:182-196 | The retried create call returns what `CreateRetryRun` returns. |
| `ServiceIntegration.CreateRetryOutcome` | pagerduty/resource_pagerduty_service_integration.go:184-196 | Every call sends the same built request, and every attempt before the last got a 400. A non-400 error is returned at once. A 400 is returned only when the window is used up. Neither changes the state. Success sets the ID to the returned integration's ID, if there is one. |
| `ServiceIntegration.Create` | pagerduty/resource_pagerduty_service_integration.go:172-203 | Create returns what `CreateRun` returns: build, then the create loop, then a read with `genError` only if that loop succeeded. |
| `ServiceIntegration.CreateRejectsBeforeAnyCall` | pagerduty/resource_pagerduty_service_integration.go:175-178 | Create issues no client call exactly when the build fails. It then returns the e-mail error and leaves the state untouched. |
| `ServiceIntegration.CreateOutcome` | pagerduty/resource_pagerduty_service_integration.go:198-202 | A failed create loop returns its error and never reads back. After a successful loop, Create returns the read-back's error. |
| `ServiceIntegration.Read` | pagerduty/resource_pagerduty_service_integration.go:205-208 | Read is the retried read with the not-found callback. |
| `ServiceIntegration.Update` | pagerduty/resource_pagerduty_service_integration.go:210-227 | A failed build returns its error with no call. Otherwise Update makes one update call with the built request and returns the client's error unchanged. The local state is never written. |
| `ServiceIntegration.Delete` | pagerduty/resource_pagerduty_service_integration.go:229-243 | Delete makes one delete call. Its error is returned unchanged and leaves the ID as it was. Success clears the ID. Attributes never change. |
| `ServiceIntegration.Import` | pagerduty/resource_pagerduty_service_integration.go:245-265 | An ID that does not split on "." into exactly two parts is refused with the format message and no call. Otherwise one lookup is made. Its error is returned with the state unchanged. On success the ID becomes the second part and `service` the first. |
| `ServiceIntegration.ImportIdRoundTrip` | pagerduty/resource_pagerduty_service_integration.go:248-253 | `<service_id>.<integration_id>`, with no "." in either part, splits back into exactly those two parts. |
| `ServiceIntegration.ImportAcceptsOneDot` | pagerduty/resource_pagerduty_service_integration.go:248-250 | An import ID is accepted exactly when it holds exactly one ".". |
| `Strings.Split` | pagerduty/resource_pagerduty_service_integration.go:248 | `strings.Split` returns one more part than there are separators. No part holds the separator, and joining the parts gives the input back. |
| `Strings.SplitPair` | pagerduty/resource_pagerduty_service_integration.go:248-253 | Splitting `a + sep + b`, where neither part holds `sep`, gives `[a, b]`. |
| `Addon.Build` | pagerduty/resource_pagerduty_addon.go:34-42 | The built add-on copies `name` and `src` and always has type `full_page_addon`. |
| `Addon.WriteBack` | pagerduty/resource_pagerduty_addon.go:59-62 | A successful read sets `name` and `src` from the remote add-on. No other attribute changes. |
| `Addon.RebuildAfterRead` | pagerduty/resource_pagerduty_addon.go:34-62 | After a read, building sends the remote name and source. Reading back what was built changes nothing that is sent. |
| `Addon.FetchOnce` | pagerduty/resource_pagerduty_addon.go:47-63 | One read attempt. On a client error the callback decides: an error is retryable, none ends the loop with no write. On success the add-on is written back. |
| `Addon.Fetch` | pagerduty/resource_pagerduty_addon.go:44-64 | The retried read returns what `FetchRun` returns. Each attempt fetches the add-on under the current ID. |
| `Addon.FetchFrame` | pagerduty/resource_pagerduty_addon.go:59-62 | A read never changes an attribute other than `name` and `src`. |
| `Addon.FetchFailsOnlyWhenExhausted` | pagerduty/resource_pagerduty_addon.go:46-57 | A read makes 1 to retries+1 calls. It fails only after using every attempt, each answered by a client error. |
| `Addon.FetchOutcome` | pagerduty/resource_pagerduty_addon.go:46-62 | A failed read leaves the attributes as they were. A successful read leaves `name` and `src` from its last reply. If the callback swallowed the last reply's error, nothing is written. |
| `Addon.SwallowedErrorEndsFetch` | pagerduty/resource_pagerduty_addon.go:48-57 | A client error that the callback maps to nil ends the read at once, successfully, with no write. |
| `Addon.Create` | pagerduty/resource_pagerduty_addon.go:66-81 | Create returns what `CreateRun` returns: one install call, then a read with `genError` under the new ID. |
| `Addon.CreateOutcome` | pagerduty/resource_pagerduty_addon.go:73-80 | Create is never retried. A failed install is the only call: its error is returned and the state is untouched. After a successful install, every later call is a read. The read-back first fetches the new add-on's ID, and Create returns the read-back's error. |
| `Addon.Read` | pagerduty/resource_pagerduty_addon.go:83-86 | Read is the retried read with the not-found callback. |
| `Addon.Update` | pagerduty/resource_pagerduty_addon.go:88-100 | Update makes one update call with the built add-on and returns the client's error verbatim. The local state is never written. |
| `Addon.Delete` | pagerduty/resource_pagerduty_addon.go:102-114 | Delete makes one delete call. Its error is returned unchanged and leaves the ID as it was. Success clears the ID. |
| `Schedule.FirstNamed` | pagerduty/data_source_pagerduty_schedule.go:50-57 | Returns the index of the first schedule whose name equals the searched name exactly, or none when no schedule has that name. |
| `Schedule.FindSchedule` | pagerduty/data_source_pagerduty_schedule.go:50-57 | The scan loop, which stops at the first match, finds exactly `FirstNamed`. |
| `Schedule.ReadAttempt` | pagerduty/data_source_pagerduty_schedule.go:37-68 | One lookup attempt. A 429 is retryable and any other listing error is fatal. No exact match is fatal. A match sets the ID and `name`. |
| `Schedule.Read` | pagerduty/data_source_pagerduty_schedule.go:26-70 | The retried lookup returns what `ScheduleRun` returns for the `name` read before the loop. |
| `Schedule.ScheduleLastAttempt` | pagerduty/data_source_pagerduty_schedule.go:31-48 | Every call lists with `Query` equal to the searched name. Every attempt before the last was rate limited. The run returns what its last attempt returns. A last attempt still rate limited used up the window. |
| `Schedule.ScheduleOutcome` | pagerduty/data_source_pagerduty_schedule.go:37-68 | A non-429 error is returned at once; a 429 is returned only when the window is used up. No exact match fails with an error naming the searched value. None of these changes the state. Success sets the ID to the first exact match's ID and `name` to the searched name. |
| `Schedule.ScheduleSuccess` | pagerduty/data_source_pagerduty_schedule.go:65-68 | After a successful lookup, `name` equals the searched name and the ID belongs to a listed schedule with exactly that name. |
| `Schedule.ExactNameScenario` | pagerduty/data_source_pagerduty_schedule.go:52-57 | Searching `OnCallRotationA` in `[OnCallRotationA, OnCallRotationAB]` picks the first entry. A case variant listed before the exact name is passed over. |
| `Schedule.ExactNameLookupScenario` | pagerduty/data_source_pagerduty_schedule.go:50-68 | The same listing through the whole lookup succeeds after one call with the ID of `OnCallRotationA`. |

## Left out

- The HTTP client (`client.Services.*`, `client.Addons.*`, `client.Schedules.List`) and `Config.Client()` are foreign network calls. They are replaced by oracles of replies.
- `resource.Retry`'s wall-clock window (one or two minutes) is modelled only as a number of further attempts. The 2-second and 30-second sleeps before a retry are not modelled.
- `genError` and `handleNotFoundError` are not part of this model. They are taken as arbitrary callbacks of the error and the ID. The model assumes a callback changes at most the ID, so a callback that writes another attribute is not captured.
- `isErrCode` is not part of this model. It is taken as equality of the client error's HTTP status.
- The schema declarations (Required, Optional, Computed, ForceNew, ConflictsWith) and `validateValueFunc` are SDK metadata that the SDK enforces before these functions run.
- The add-on importer is `schema.ImportStatePassthrough`, which is SDK library behaviour.
- `ServiceIntegration.Import` models the returned `[]*schema.ResourceData` only as its error. The slice holds `d` exactly when no error is returned.
- Logging (`log.Printf`).
- A read's reply is always an integration or an error. A nil integration returned with no error is not modelled, because the Go code would dereference it. Create's reply may be a nil integration, because the source checks for that case.
- `Addon.Create`: the install reply is always an add-on or an error. A nil add-on returned with no error is not modelled, because `d.SetId(addon.ID)` would dereference it. The same holds for the add-on read's reply.
