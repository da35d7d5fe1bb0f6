# Resilient HTTP client interceptors and task store, in Dafny

This project models two parts of a Vue/Quasar task application.

**The HTTP client's interception layer** (`src/config/axios.js`):
- The request interceptor attaches `Authorization: Bearer <token>` when the user is signed in.
- The response-error interceptor is a small state machine over the request descriptor's two bookkeeping fields:
  - `_retry` allows one token refresh after a 401;
  - `_retryCount` is shared by the single Retry-After retry of a 429 and the exponential-backoff retries of a 5xx.
- Every failure that is not recovered is reported with notifications and rejected.

**The task store** (`src/stores/tasks.js`): a list of tasks with three filtering getters, plus actions that issue one request each and update the list in place from the reply.

Files:
- `wrappers.dfy` (module `Wrappers`): `Option`, and JavaScript's `s || fallback` on an optional string (`Or`). An absent and an empty string are both falsy.
- `api_client.dfy` (module `ApiClient`): the interceptors.
  - `Descriptor` is a class whose methods update `retry`, `retryCount` and `authorization` in place.
  - `Inbound` is the error handler's decision chain as a function; `Descriptor.HandleError` is proved equal to it.
  - `AttemptStep` is one attempt: outbound stage, transport, error handler. `Descriptor.Attempt` is proved equal to it.
  - `Run` is a whole call: attempts joined by resubmissions. `Send` drives a descriptor through it with a loop and is proved equal to `Run`.
- `task_store.dfy` (module `TaskStore`): the getters as sequence filters, and the class `Store` with the actions.

Modelling choices:
- The transport is a sequence of outcomes, one per attempt. `Run` and `Send` need one more outcome than the descriptor's remaining retry budget, which is at most 4 outcomes.
- The credential store's `refreshToken()` is an input: `Refreshed(token)`, `NotRefreshed` or `RefreshThrows`. A descriptor consults it at most once, so one value serves a whole call. After `Refreshed(token)` the store holds `token`, and the resubmission passes through the request interceptor again.
- `logout(false)` and `router.push('/login')` are recorded as the flags `loggedOut` and `navigatedToLogin` of the rejection.
- The interceptors' notifications are `Notice` values: one per fixed text, plus `ServerMessage(text)` for the server's own message. `Text` gives the exact text shown. The store records each notification as a `Note`: its literal text plus the success colour. The two representations differ on purpose: the interceptors' fixed texts stay symbolic because the retry proofs reason about notifications many times over, and literal strings make that reasoning far more expensive; the store's texts are only ever compared as written.
- Delays are returned as milliseconds and are never waited for.
- A null access token is the empty string where the code tests it for truthiness (axios.js:20). After a successful refresh the token is used untested; see `ApiClient.Unauthorized` under "Left out". `_retryCount` unset is `0`, since `!_retryCount` treats both alike.
- A store action's HTTP reply is an input value. `Ok(success, payload, message)` is a resolved response with its `{success, ...}` envelope. `Err(responseMessage, errorMessage)` is a rejection from the client, with `error.response.data.message` and `error.message`.

Two behaviours of the code worth noting:
- A 429 that is not retried shows two notifications. First comes "Too many requests…" (axios.js:72-77). The generic 4xx branch then also fires (axios.js:120-127), because 429 is a 4xx other than 401.
- A refresh that resolves `false` does not log out. The `if (refreshed)` test fails, nothing else in the `try` runs, and the 401 falls through to terminal reporting. That reporting excludes 401, so the error is rejected with no notification and no logout (axios.js:39-43, 120).

## Model

| member | source | states |
|---|---|---|
| ApiClient.OutboundHeader | src/config/axios.js:17-25 | The header becomes `Bearer <token>` when the user is authenticated and the token is non-empty; otherwise it is left as it was. |
| ApiClient.OutboundIdempotent | src/config/axios.js:17-25 | Running the request interceptor twice gives the same header as running it once. |
| ApiClient.Descriptor.ApplyOutbound | src/config/axios.js:20-22 | The interceptor changes only the descriptor's Authorization header, and sets it to `OutboundHeader` of the old one. |
| ApiClient.Descriptor.constructor | src/config/axios.js:31-36 | A new descriptor has neither `_retry` nor `_retryCount` set. |
| ApiClient.ServerRetryDelay | src/config/axios.js:85-86 | The backoff is 2^count seconds: 2000 ms for the first server retry and 4000 ms for the second. |
| ApiClient.MessageOrText | src/config/axios.js:98-144 | A notice chosen as "server message or default" displays the server's message when it is truthy (present and non-empty), and otherwise the fixed default text. |
| ApiClient.TerminalNotice | src/config/axios.js:94-146 | Terminal reporting shows at most one notification, and none exactly for a response below 400 or a 401. A 4xx/5xx server message wins over the default and is never empty. Without one, a 403 falls back to the permission notice, a 404 to the not-found notice, a 5xx to the server-error notice and any other 4xx to the request-failed notice. No response gives the network-error notice, and a request that could not be built gives `error.message` or the unexpected-error notice. |
| ApiClient.Inbound | src/config/axios.js:30-147 | No pass of the error handler raises the descriptor's retry budget, and every resubmission lowers it. A resubmission after a refresh needs the refresh to have succeeded. |
| ApiClient.InboundKeeps | src/config/axios.js:30-147 | `_retry` never goes back to false. `_retryCount` never decreases and never passes 2. The header changes only to `Bearer <refreshed token>`. An auth resubmission is immediate, needs an unretried descriptor and leaves the count alone. Any other resubmission adds exactly 1 to the count. A server retry waits 2000 or 4000 ms. A rejection keeps the count. A logout comes with exactly the session-expired notice and the navigation to login. |
| ApiClient.Descriptor.HandleError | src/config/axios.js:30-147 | The interceptor's in-place updates of `_retry`, `_retryCount` and the header, and its decision, are exactly those of `Inbound`. |
| ApiClient.RefreshOnlyOnFirst401 | src/config/axios.js:35-36 | The refresh result matters only for a 401 on a descriptor with `_retry` unset, and that 401 sets `_retry`. |
| ApiClient.Unauthorized | src/config/axios.js:35-58 | A 401: refresh true resubmits at once with the new bearer header; a throw rejects with one session-expired notice, logout and navigation; refresh false, or `_retry` already set, rejects silently. |
| ApiClient.RateLimited | src/config/axios.js:61-127 | A 429 with Retry-After and no retry count sets the count to 1 and resubmits after seconds × 1000 ms. Otherwise it rejects with "Too many requests" and then the generic 4xx notice. |
| ApiClient.ServerError | src/config/axios.js:81-119 | A 5xx with count below 2 increments it and resubmits after 2000 or 4000 ms. Otherwise it rejects with the server message or the server-error text. |
| ApiClient.OtherFailure | src/config/axios.js:92-147 | Any other failure leaves the descriptor unchanged and rejects with the terminal notifications. |
| ApiClient.AttemptStep | src/config/axios.js:17-147 | One attempt reaches the error handler exactly when the transport answers with a non-2xx or no response. It never raises the retry budget, lowers it on every resubmission, and resubmits after a refresh only when the refresh succeeded. |
| ApiClient.Descriptor.Attempt | src/config/axios.js:17-147 | One attempt runs the request interceptor and, for a failure, the error interceptor. The header sent, the descriptor's fields afterwards and the decision are exactly `AttemptStep`'s. |
| ApiClient.AttemptKeeps | src/config/axios.js:17-147 | The invariants of `InboundKeeps` hold across a whole attempt, outbound stage included. |
| ApiClient.RunLength | src/config/axios.js:28-148 | For any transport answers, a call makes one attempt more than it resubmits, and at most as many resubmissions as the descriptor's budget. |
| ApiClient.RunCounts | src/config/axios.js:28-148 | A call makes at most one auth resubmission (none once `_retry` is set) and at most 2 − count counted ones. The count stays ≤ 2. |
| ApiClient.RunFinal | src/config/axios.js:28-148 | A call resolves only with a 2xx and otherwise rejects the last attempt's own error, the one that follows the last resubmission. |
| ApiClient.RunLogoutAndDelays | src/config/axios.js:28-148 | A logout happens only on a descriptor whose `_retry` was unset, with exactly the session-expired notice. Every server retry waits 2000 or 4000 ms. |
| ApiClient.AtMostThreeResubmissions | src/config/axios.js:35-90 | A fresh descriptor is resubmitted at most 3 times: at most one auth retry, and `_retryCount` never above 2. |
| ApiClient.ServerErrorBackoff | src/config/axios.js:81-119 | Three 5xx in a row give retries after 2000 ms and 4000 ms, then one server-error notification rejecting the third. |
| ApiClient.RateLimitSharesCounter | src/config/axios.js:61-90 | After a Retry-After retry, two 5xx get only one retry, after 4000 ms. |
| ApiClient.SecondRateLimitReported | src/config/axios.js:61-127 | A second 429 is not delayed again; it is rejected with its two notifications. |
| ApiClient.RefreshedResubmission | src/config/axios.js:35-43 | After a successful refresh the second attempt carries `Bearer <new token>`. The call's end is the resubmission's, and it never logs out. |
| ApiClient.RefreshThrowsEndsSession | src/config/axios.js:44-57 | A throwing refresh gives no resubmission, exactly one session-expired notice, one logout and one navigation, and rejects the original 401. |
| ApiClient.RefreshFalseIsSilent | src/config/axios.js:35-147 | A refresh resolving false gives no resubmission, no notification and no logout, and rejects the 401. |
| ApiClient.TerminalAtOnce | src/config/axios.js:92-147 | A failure that is not 401, 429 or 5xx has no retry and is rejected at once with its terminal notifications: one for a status of 400 or more (other than 401), for a lost connection or for a request that could not be built, and none for a non-2xx status below 400. |
| ApiClient.Send | src/config/axios.js:28-148 | Driving a descriptor through attempts until resolution or rejection gives exactly `Run`'s history, and leaves the descriptor in `Run`'s final state. |
| TaskStore.Filter | src/stores/tasks.js:26-28 | `filter` keeps exactly the accepted elements, each as often as in the input, as an order-preserving subsequence. |
| TaskStore.Filtered | src/stores/tasks.js:17-24 | `filteredTasks` is an order-preserving subsequence. It holds exactly the `is_completed === true` tasks for 'completed' and the `=== false` ones for 'incomplete'. For any other filter it is the whole list. |
| TaskStore.CompletedAndIncompletePartition | src/stores/tasks.js:26-28 | When every `is_completed` is a boolean, `completedTasks` and `incompleteTasks` together have the list's length and its exact multiset. |
| TaskStore.FindIndex | src/stores/tasks.js:108 | The result is −1 exactly when no task has the id, and otherwise the first position holding it. |
| TaskStore.ReplaceFirst | src/stores/tasks.js:108-111 | The length is unchanged and only the first task with the id is replaced. With no match, the list is unchanged. |
| TaskStore.WithoutId | src/stores/tasks.js:143 | The result is an order-preserving subsequence that drops every task with the id and keeps every other task as often as before. |
| TaskStore.WithoutIdMembers | src/stores/tasks.js:143 | After a delete, a task is present exactly when it was before and lacks the id; the list does not grow. |
| TaskStore.FetchPath | src/stores/tasks.js:47-48 | The path is `/task/` exactly for 'all'. Otherwise it is `/task/?status=` followed by the filter, so the filter can be read back from it. |
| TaskStore.CompletionRequest | src/stores/tasks.js:172-179 | Completing uses PATCH `/task/{id}/complete` with no body. Reopening uses PUT `/task/{id}` with `is_completed: false`. |
| TaskStore.FailureText | src/stores/tasks.js:84-88 | The error text is non-empty. An unsuccessful envelope shows its message, else the throw default. A rejection shows `response.data.message`, else `error.message`, else the default. |
| TaskStore.Store.constructor | src/stores/tasks.js:6-14 | Empty list, filter 'all', every loading flag false. |
| TaskStore.Store.SetFilter | src/stores/tasks.js:37-39 | Sets the current filter and nothing else. |
| TaskStore.Store.FetchTasks | src/stores/tasks.js:41-67 | GETs `FetchPath(filter)` and sets the filter whatever the reply. On success the list becomes the reply's tasks, or empty when absent. On failure the list is emptied and one error notice is shown, with default "Failed to fetch tasks" for an envelope and "Failed to load tasks" for a rejection. `loading` ends false. |
| TaskStore.Store.CreateTask | src/stores/tasks.js:69-99 | On success the new task is prepended, a success notice is shown and it returns true. On failure the list is unchanged, one error notice is shown and it returns false. `loadingCreate` ends false. |
| TaskStore.Store.UpdateTask | src/stores/tasks.js:101-134 | On success the list becomes `ReplaceFirst` of it and it returns true, even when no task matched. On failure the list is unchanged and it returns false. Exactly one notice of the store's own either way; for a rejected request the client's terminal notices come in addition, since the reply is an input here. |
| TaskStore.Store.DeleteTask | src/stores/tasks.js:136-166 | On success the list becomes `WithoutId` of it and it returns true. On failure the list is unchanged and it returns false. Exactly one notice of the store's own either way; for a rejected request the client's terminal notices come in addition, since the reply is an input here. |
| TaskStore.Store.MarkComplete | src/stores/tasks.js:168-208 | It issues `CompletionRequest`. On success it does the same first-match replacement and shows a success text chosen by `isCompleted`. On failure the list is unchanged and one error notice is shown. |

## Left out

- ApiClient.Unauthorized: `Refreshed` carries the store's new token as a string, so a refresh that resolves true while the store holds a null token is resubmitted with `Bearer ` in the model, where the code sends `Bearer null` (axios.js:41 builds the header without testing the token).
- The store's notices: each store action's reply is an input, so the client's own terminal notices for a rejected request (axios.js:94-146), shown before the store's error notice, are not part of the store's model.
- The transport itself: the axios instance, base URL from the environment, the 10 000 ms timeout and the default JSON headers (axios.js:5-14). Each attempt's outcome is an input.
- Real timers: `setTimeout` delays are returned as numbers of milliseconds and never waited for.
- Quasar notification rendering (colour, position, duration) and `console.log(e)`. Only the message texts are kept, plus the success/error colour in the store.
- The credential store's internals: `refreshToken`, `logout` and the router are inputs or recorded flags. The model assumes the store has a router, so `router?.push` always navigates.
- Concurrency: parallel 401s each starting a refresh, and store actions interleaving on shared loading flags. Each call is modelled on its own, so the `loading*` flags are seen only before and after an action.
- A non-numeric `Retry-After` (`parseInt` gives NaN). The header is modelled as absent or a whole number of seconds.
- `isOverdue` (tasks.js:30-33): it reads the system clock and parses dates.
- Pinia reactivity and the `defineStore` plumbing. The default arguments of `fetchTasks` ('all') and `markComplete` (true) are ordinary parameters.
- src/services/user.service.js is not part of this model. It forwards two fields to the client and returns the response body.
- Values of the wrong JavaScript type: a non-string server message, a missing `task` in a successful reply, and an `entity_id` compared across types. Ids are strings; a non-boolean `is_completed` is `None`.
