# intellihub client: job pollers, flow questions and request bodies

The intellihub Python client (`IntellihubClient` in `intellihub/core.py`)
wraps the platform's REST endpoints. Almost every method builds a dict,
posts it and returns the response. This project models the parts with
local logic of their own:

- **Job-status pollers.** `job_status` fetches a machine-learning job's
  status and re-fetches while its `state` is `'RUN'`. `vision_job_status`
  and `tape_status` do the same for the `status` field, but their loop
  condition is inverted. The server is a finite sequence of replies
  (`Polling.Reply`: status code and parsed JSON body). The i-th request
  returns the i-th reply. Only the first reply's status code is checked,
  as in the source. A poller ends in one of three ways:
  - `Returned(payload)`: it returns a payload;
  - `Raised(error)`: it raises one of four errors: `BadStatus(code)`,
    `JobFailed(message)`, `KeyError(field)` (the body is a dict without the
    status field) or `TypeError(typeName)` (the body is not a dict, so
    indexing it with a string fails);
  - `Exhausted`: the finite stream ran out while the poller still had to
    fetch. For `job_status` this means every reply so far said `'RUN'`, and
    the program itself would go on polling. For `vision_job_status` and
    `tape_status` it happens only on an empty stream, before any reply.
- **Flow questions of `add_flow`.** The loop keeps only the questions that
  have `options` or `input`, and reduces each to four keys. A question
  that lacks one of the copied keys raises `KeyError`, modelled as
  `Failure(key)`.
- **Request bodies.** `create_chatbot` picks its body by bot type.
  `train`, `feedback` and `cluster` default the model name to the
  algorithm and `params` to `{}`.

JSON values are `Values.Json`. Python `None` is `JNull`, because a `None`
argument is serialised as `null`. A `dict` is `JObject` over a Dafny
`map`.

`vision_job_status` is easily read as a poller that loops forever on a
running job and exits once the job is terminal. The code does neither. Its
loop runs only while the status is `'FINISH'` or `'FAIL'`, and the loop is
entered only when the status is `'RUN'`. So the body never runs: one
request is made, and a `'RUN'` payload is returned as is. This model
follows the code (`Polling.ServiceJobStatus`) and records the defect
under Findings.

## Model

| member | source | states |
|---|---|---|
| `Polling.FirstOutside` | intellihub/core.py:983-985 | the index where a `while response[field] in polling` loop stops: every earlier body is in a polled state, and the body at that index is not (or the stream ended) |
| `Polling.PollWhile` | intellihub/core.py:983-985 | the polling loop over the bodies of successive fetches stops at the first body not in a polled state, and every body it skipped was in one |
| `Polling.Verdict` | intellihub/core.py:986-987 | on the body where polling stopped: a dict without the status field raises that field's KeyError, a body that is not a dict raises TypeError, `'FAIL'` raises the job-failure error, and any other status returns the body unchanged; no status-code error and no exhaustion arise here |
| `Polling.PollUntilSettled` | intellihub/core.py:980-990 | the poller makes at most as many requests as there are replies; a non-200 first reply raises `BadStatus` with that code after exactly one request; otherwise the outcome and the request count are those of polling while `'RUN'` |
| `Polling.JobStatus` | intellihub/core.py:967-990 | `job_status` on the `state` field with message `'Prediction job failed!'`; a non-200 first reply raises with its code after one request |
| `Polling.SettledReturns` | intellihub/core.py:983-990 | the poller returns payload p exactly when the first reply is 200, p is the first body whose state is not `'RUN'`, every earlier body's state is `'RUN'`, and p's state exists and is not `'FAIL'` |
| `Polling.SettledFails` | intellihub/core.py:986-987 | the job-failure error is raised, and nothing returned, exactly when the first non-`'RUN'` state after a 200 reply is `'FAIL'` |
| `Polling.SettledBadStatus` | intellihub/core.py:981-989 | `BadStatus(code)` is raised exactly when the first reply is not 200, it carries that reply's code, and one request is made |
| `Polling.SettledExhausted` | intellihub/core.py:983-985 | the poller only runs out of replies when there were none, or every reply after a 200 said `'RUN'`; it never stops on its own |
| `Polling.SettledIgnoresLaterCodes` | intellihub/core.py:985 | replies after the first are read for their body alone: changing their status codes changes neither the outcome nor the request count |
| `Polling.SettledPrefixDecides` | intellihub/core.py:983-985 | once the poller stops, appending more replies changes neither the outcome nor the request count |
| `Polling.JobStatusThreeChecks` | intellihub/core.py:983-990 | the stream RUN, RUN, FINISH: three requests, and the third body is returned |
| `Polling.JobStatusImmediateFailure` | intellihub/core.py:986-987 | the stream FAIL: one request, and the job-failure error is raised |
| `Polling.ServiceJobStatus` | intellihub/core.py:366-376 | the shared code of `vision_job_status` and `tape_status` makes exactly one request (none only on an empty stream); its outcome depends on the first reply alone, so the inverted loop never runs |
| `Polling.VisionJobStatus` | intellihub/core.py:352-376 | `vision_job_status`: exactly one request; outcome decided by the first reply |
| `Polling.TapeStatus` | intellihub/core.py:452-476 | `tape_status`: exactly one request; outcome decided by the first reply |
| `Polling.ServiceJobOutcomes` | intellihub/core.py:368-374 | after a 200 reply, `'job failed!'` is raised exactly when the status is `'FAIL'`; any other status, `'RUN'` included, is returned unchanged; a dict without `status` raises KeyError, a body that is not a dict raises TypeError naming its type |
| `Polling.ServiceJobBadStatus` | intellihub/core.py:375-376 | the status-code error is raised exactly when the first reply is not 200, and it carries that code |
| `Polling.IntendedServiceJobStatus` | intellihub/core.py:368-371 | the corrected vision/tape poller: polls on `status` while `'RUN'`, as `job_status` does on `state` |
| `Polling.IntendedNeverReturnsRunning` | intellihub/core.py:368-374 | the corrected poller never returns a payload whose status is `'RUN'` or `'FAIL'` |
| `Polling.InvertedLoopReturnsRunningJob` | intellihub/core.py:368-371 | on the stream RUN, FINISH the code as written returns the running job's body; the corrected poller returns the finished body after two requests |
| `Polling.StatusMessageCarriesCode` | intellihub/core.py:989 | the status-code error message is `'Error while checking the status. Got '` followed by the decimal code, and the code can be read back from it |
| `Polling.LookupError` | intellihub/core.py:983 | indexing a body that yields no value raises KeyError exactly when the body is a dict, and TypeError (never naming `dict`) otherwise |
| `Polling.Message` | intellihub/core.py:983-989 | the text of each error: the status-code message starts with `'Error while checking the status. Got '`; the job-failure message is the given text; a KeyError quotes the key; a TypeError reads as Python words it for a list, a str or another type |
| `Polling.NonObjectBodyRaisesTypeError` | intellihub/core.py:983 | a 200 reply whose body is `[]` makes `job_status` raise TypeError with the list-index text; a 200 reply with `{}` raises KeyError `'state'` |
| `Flow.AnswerKey` | intellihub/core.py:652-661 | a kept question keeps `options` when it has it, and `input` otherwise |
| `Flow.Entry` | intellihub/core.py:653-661 | the appended dict has exactly the keys question, the answer key, jsonKey and order, each copied from the question; a missing key raises KeyError, reported for the first missing key in the order question, jsonKey, order |
| `Flow.SentIndicesSelect` | intellihub/core.py:651-661 | the indices of the kept questions are strictly increasing, in range, and are exactly the questions with `options` or `input` |
| `Flow.FlowQuestionsFailure` | intellihub/core.py:651-661 | the list is built exactly when every kept question has all copied keys; otherwise the KeyError is that of the first kept question missing one |
| `Flow.FlowQuestionsContents` | intellihub/core.py:651-661 | on success, the list is no longer than the input, and its j-th element is the entry of the j-th kept question, in input order |
| `Flow.NormaliseQuestions` | intellihub/core.py:650-661 | the loop that appends entries computes exactly `FlowQuestions` of the input, stopping at the first KeyError |
| `Flow.AddFlowBody` | intellihub/core.py:650-669 | the body has exactly `questions` (the normalised list) and `api-config` (url and method); it fails exactly when normalisation does, with the same key |
| `Bodies.ChatbotBody` | intellihub/core.py:522-561 | name, type, basic_conversation (the three fixed texts), social_webhooks `{}` and facebook_recipient_id `""` are always present; `flow_conversation` is present exactly for type `'flow'`, with question orders 1, 2, 3; `entities` and `intents` are present, empty, exactly for `'default'`; any other type adds neither |
| `Bodies.TrainBody` | intellihub/core.py:813-830 | config keys are exactly those of `train`; the name is the algorithm when `model_name` is None and the supplied name otherwise; params are `{}` when None and the supplied value otherwise; every other argument passes through unchanged |
| `Bodies.FeedbackBody` | intellihub/core.py:864-884 | the same defaulting for `feedback`, with its own key set, task `'FEEDBACK'` and service |
| `Bodies.ClusterBody` | intellihub/core.py:943-959 | the same defaulting for `cluster`, with task `'CLUSTER'`, `numOfClusters` the given count and `epsilon` 0.1 |
| `Bodies.TrainDefaultsAreExplicit` | intellihub/core.py:813-816 | calling `train` without `model_name` and `params` builds the same body as passing the algorithm and `{}` |
| `Bodies.FeedbackDefaultsAreExplicit` | intellihub/core.py:864-867 | the same for `feedback` |
| `Bodies.ClusterDefaultsAreExplicit` | intellihub/core.py:943-946 | the same for `cluster` |
| `Bodies.JobBuildersAgree` | intellihub/core.py:813-959 | given the same arguments, `train`, `feedback` and `cluster` put the same name, algorithm, features, save flag, params and dataset URL in their config |

## Findings

| source | as written | input that shows it | evidently intended | confidence | as-written member | corrected member |
|---|---|---|---|---|---|---|
| intellihub/core.py:368-371 | inside `if status == "RUN"`, the loop re-fetches while the status is `'FINISH'` or `'FAIL'`, which a `'RUN'` response never is; one request is made and a running job's payload is returned. `tape_status` (core.py:468-471) has the same code | replies `200 {status: RUN}`, then `200 {status: FINISH}`: the running body is returned after one request | re-fetch while the status is `'RUN'`, as `job_status` does, then raise on `'FAIL'` or return | medium, not executed | `Polling.InvertedLoopReturnsRunningJob` | `Polling.IntendedServiceJobStatus` |

## Left out

- HTTP (`requests.get` / `requests.post`), URLs, headers and the API key. The server is the reply sequence.
- Multipart uploads and `open(...)` file handles: these are file and network I/O.
- `time.sleep` and the 5-second interval: timing does not change any outcome.
- `json.dumps` and `.json()`. Bodies are `Json` values; a reply body that is not JSON is not modelled.
- Transport failures (connection errors, timeouts), which `requests` raises.
- An unbounded poll: `job_status` has no attempt bound. The model uses a finite reply sequence, and the stream running out is the `Exhausted` outcome, not a termination claim.
- Polling.JobStatus: an exception from `.json()` on a later non-JSON reply is not modelled; every reply carries a parsed body.
- Polling.Message: the TypeError texts follow Python 3.11 and later; earlier versions word the str case differently.
- Bodies.ClusterBody: `int(number_of_clusters)` is modelled for integer arguments only. Python's parsing of strings and truncation of floats are not modelled.
- Bodies.ClusterBody: `epsilon` is the exact decimal 0.1 (a Dafny `real`), whereas Python holds the nearest binary double. Both serialise as `0.1`.
- Bodies.TrainBody: `service` only selects the URL, so it is not a parameter.
- `create_chatbot`'s return path (core.py:565-569). It compares the integer status code with the string `"200"`, and it prints. It needs a real HTTP response.
- `Flow.AddFlowBody`: `add_flow`'s POST and its return on a 200 response. Questions are taken to be dicts; a non-dict element would raise `AttributeError`, which is not modelled.
- The remaining endpoint wrappers of `intellihub/core.py`: each builds a fixed dict and makes one call.
- `intellihub_ai/__init__.py` (a version check against the package index over the network), `setup.py` and the example scripts.
