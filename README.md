# WeChat Work notifier — a verified Dafny model

This project models the WeChat Work notifier of the notification manager (`pkg/notify/notifier/wechat/wechat.go`). The notifier renders alert data into messages (the parameter `split` here) and delivers them to WeChat Work receivers. Four pieces of its logic are modelled, and what their code promises is proved:

- **Option resolution** (`Options`). `NewWechatNotifier` starts from defaults (send timeout 3 s, the default template, message size 2048, token lifetime 2 h) and overrides them with the WeChat options, if there are any. The template name comes from the WeChat option, then the global option, then the default. The size is overridden only by a positive value and the lifetime by any non-zero value. The timeout is the configured number of seconds times `time.Second`, with int64 wrap-around.
- **Receiver merging** (`Merge`, including the imperative loop body `MergeReceiver`, plus `NewWechatNotifier` in `Notifier`). The receiver list is filtered: receivers of other types, nil receivers, receivers without a config and receivers whose key cannot be computed are skipped. An empty API URL is replaced by the default one. Each receiver is keyed by the hash of its destination-cleared clone. Receivers that share a key are folded into one map entry, and each of its three destination strings is extended by `"|" + value` with one leading `"|"` trimmed.
- **Recipient batching** (`Bars`, `Batching`, `Dispatch`, and `BuildAll` in `Notifier`). In `Notify`, each merged receiver's user, party and tag lists are split on `"|"`. `batch` cuts them into windows of at most 1000, 100 and 100 entries, with the three cursors advancing in lockstep until all three lists are exhausted. Each round adds one task per message. An empty destination list is not skipped: `strings.Split` turns it into one empty entry, so round 0 sends it as `"|"`.
- **Delivery with one retry** (`Delivery`, and `SendAll` in `Notifier`). One attempt of `sendMessage` is classified as follows:
  - a failed step returns its error;
  - reply code 0 means success;
  - code 42001 invalidates the token and asks for a retry;
  - any other code is logged and returns no error.

  `send` makes a second attempt only after a 42001, and the second attempt's retry flag is ignored. Tokens are fetched and invalidated under the key `CorpID + " | " + AgentID`. The token fetch always reports the lifetime `DefaultExpires`.

The notifier is a `class Notifier` with its map of merged receivers and its resolved settings:
- the factory `NewWechatNotifier` builds it with an imperative merge loop;
- `Notify` returns the errors the sends report, and records as ghost values the map order it used and the tasks it built.

These are models, not bindings:
- The operations outside the core are parameters. `md5key` hashes a receiver. `loadTemplate` loads the template files. `split(size, name)` renders the messages. `attempt(request, i)` is the oracle for what attempt `i` observes: the token fetch, encoding, URL building, the HTTP exchange and decoding.
- `Clone` is written out as the assumption the merge depends on: a copy whose three destination lists are empty.
- Durations are integers counting nanoseconds.

## Model

| member | source | states |
|---|---|---|
| Options.WrapInt64 | pkg/notify/notifier/wechat/wechat.go:92 | The Go int64 product: the result lies in the signed 64-bit range and is congruent to the exact product modulo 2^64. |
| Options.Resolve | pkg/notify/notifier/wechat/wechat.go:77-108 | Without WeChat options, every setting is the default, whatever the global options say. The resolved template name is never empty, the size is positive, the token lifetime is non-zero and the timeout fits in an int64. |
| Options.TemplateFilesGlobalOnly | pkg/notify/notifier/wechat/wechat.go:66-70 | The template files handed to the loader are the global options' files, or none without global options. The WeChat options play no part. |
| Options.TemplatePrecedence | pkg/notify/notifier/wechat/wechat.go:95-99 | The template name is the WeChat template if that is non-empty, otherwise the global template if present and non-empty, otherwise the default. |
| Options.MaxSizeOverride | pkg/notify/notifier/wechat/wechat.go:101-103 | The message size is overridden exactly when the WeChat value is positive. Otherwise it stays 2048. |
| Options.TokenExpiresOverride | pkg/notify/notifier/wechat/wechat.go:105-107 | The token lifetime is overridden by every non-zero value, negative ones included. Zero keeps two hours. |
| Options.TimeoutOverride | pkg/notify/notifier/wechat/wechat.go:91-93 | With no timeout configured, the timeout stays 3 s. With a configured count of seconds whose nanoseconds fit in an int64 (from -9223372036 to 9223372036, negative counts included), it is that many seconds. |
| Bars.Split | pkg/notify/notifier/wechat/wechat.go:260-262 | `strings.Split` on `"|"` never returns an empty list, and no part contains the separator. |
| Bars.JoinSplit | pkg/notify/notifier/wechat/wechat.go:260-262 | Joining the split parts with `"|"` gives back the original destination string. |
| Bars.SuffixedIsJoin | pkg/notify/notifier/wechat/wechat.go:352-355 | For a non-empty list, the string `batch` accumulates (each entry followed by `"|"`) is the `"|"`-join of the list followed by one `"|"`. |
| Bars.SuffixedConcat | pkg/notify/notifier/wechat/wechat.go:352-355 | Accumulating two lists one after the other gives the accumulation of their concatenation. |
| Bars.EntriesOfSuffixed | pkg/notify/notifier/wechat/wechat.go:352-355 | An accumulated string of separator-free entries holds exactly as many `"|"` as there are entries. |
| Bars.JoinNoLeadingBar | pkg/notify/notifier/wechat/wechat.go:138-151 | A join of non-empty parts that do not start with `"|"` does not start with `"|"`, and it is non-empty when there is some part. |
| Batching.WindowSlice | pkg/notify/notifier/wechat/wechat.go:339-348 | Up to the end of the list, the window at the cursor is the slice `src[index .. min(index+size, len)]`, each entry suffixed. |
| Batching.Batch | pkg/notify/notifier/wechat/wechat.go:338-358 | Past the end, `batch` returns `""` and leaves the cursor where it is. Otherwise it advances the cursor by exactly `size`. In both cases it returns the window at the old cursor. |
| Batching.CeilSpec | pkg/notify/notifier/wechat/wechat.go:265-272 | `j` rounds of `size` cover `len` entries exactly when `j` is at least `ceil(len / size)`. |
| Batching.BatchAdvance | pkg/notify/notifier/wechat/wechat.go:266-272 | A cursor that `j` calls to `batch` have moved yields round `j`'s window at `j*size`, and after the call the cursor matches `j+1` rounds. This also holds when the cursor stopped at the end of the list. |
| Batching.CursorDone | pkg/notify/notifier/wechat/wechat.go:266-268 | After `j` rounds, a list's cursor has reached its end exactly when `j >= ceil(len / size)`. |
| Batching.StartIsProduct | pkg/notify/notifier/wechat/wechat.go:350 | The cursor after `r` advances of `size` is `r * size`. |
| Batching.WindowsAt | pkg/notify/notifier/wechat/wechat.go:270-272 | The `r`-th batch string of a list is its window at `r * size`. |
| Batching.WindowsPrefix | pkg/notify/notifier/wechat/wechat.go:265-272 | The first `n` batch strings of a list, concatenated, are its first `n*size` entries (or all of them), each suffixed. |
| Batching.WindowsCover | pkg/notify/notifier/wechat/wechat.go:265-272 | Once the rounds a list needs have run, its batch strings in order hold every entry of the list exactly once, in order. |
| Batching.WindowBound | pkg/notify/notifier/wechat/wechat.go:343-348 | A batch of separator-free entries holds at most `size` of them. |
| Batching.WindowEmpty | pkg/notify/notifier/wechat/wechat.go:339-348 | A batch string is empty exactly when the cursor is at or past the end of the list. |
| Dispatch.Fanout | pkg/notify/notifier/wechat/wechat.go:274-279 | A round contributes one task per message. |
| Dispatch.BuildTasks | pkg/notify/notifier/wechat/wechat.go:257-281 | Splitting, cloning and the lockstep loop produce exactly the reference task list for the receiver: each round's clone carrying that round's three batches, each paired with each message in order. |
| Dispatch.Lockstep | pkg/notify/notifier/wechat/wechat.go:259-280 | The loop terminates, runs exactly `max(ceil(users/1000), ceil(parties/100), ceil(tags/100))` rounds, and adds the tasks of rounds 0, 1, … in order. |
| Dispatch.AddRound | pkg/notify/notifier/wechat/wechat.go:274-279 | The inner loop appends one task per message for the current copy, in message order. |
| Dispatch.PlanStep | pkg/notify/notifier/wechat/wechat.go:270-279 | The tasks after `j` rounds plus round `j`'s tasks are the tasks after `j+1` rounds. |
| Dispatch.LoopGuard | pkg/notify/notifier/wechat/wechat.go:265-268 | The loop's exit test holds after `j` rounds exactly when `j` has reached the number of rounds the longest list needs. |
| Dispatch.RoundsPositive | pkg/notify/notifier/wechat/wechat.go:259-268 | The loop always runs at least once, because a split list is never empty. |
| Dispatch.EmptyListSent | pkg/notify/notifier/wechat/wechat.go:259-272 | An empty user, party or tag string is split into one empty entry, so round 0 sends it as `"|"`. |
| Dispatch.FlatLength | pkg/notify/notifier/wechat/wechat.go:274-279 | Every receiver copy contributes exactly one task per message. |
| Dispatch.FlatAt | pkg/notify/notifier/wechat/wechat.go:274-279 | Task number `r*len(messages)+k` is message `k` for copy `r`. |
| Dispatch.DestsAt | pkg/notify/notifier/wechat/wechat.go:264-272 | Round `r`'s copy is the clone carrying round `r`'s three batches. |
| Dispatch.TasksLength | pkg/notify/notifier/wechat/wechat.go:257-281 | A receiver yields its number of rounds times the number of messages tasks. |
| Dispatch.TasksAt | pkg/notify/notifier/wechat/wechat.go:264-279 | Task `r*len(messages)+k` for a receiver sends message `k` to round `r`'s copy. |
| Dispatch.RoundBatches | pkg/notify/notifier/wechat/wechat.go:270-272 | Round `r`'s ToUser, ToParty and ToTag are the `r`-th entries of each list's batch sequence. |
| Dispatch.Coverage | pkg/notify/notifier/wechat/wechat.go:259-272 | For each of the three lists, the batch strings in round order concatenate to the receiver's string followed by `"|"`. No entry is dropped, repeated or reordered. |
| Dispatch.RoundBounds | pkg/notify/notifier/wechat/wechat.go:270-272 | No batch carries more than 1000 users, 100 parties or 100 tags. |
| Dispatch.Exhausted | pkg/notify/notifier/wechat/wechat.go:266-272 | A list contributes `""` to exactly the rounds after the ones it needs. |
| Dispatch.DestsKeep | pkg/notify/notifier/wechat/wechat.go:264-272 | Every round's copy keeps the receiver's scope and config. Only the destinations change. |
| Dispatch.FlatKeep | pkg/notify/notifier/wechat/wechat.go:274-279 | The tasks of copies that share a scope and config all carry that scope and config. |
| Dispatch.TasksKeep | pkg/notify/notifier/wechat/wechat.go:264-278 | Every task of a receiver goes out with the receiver's own scope and config. |
| Merge.Normalize | pkg/notify/notifier/wechat/wechat.go:122-124 | A receiver's API URL is left alone when it is set and defaulted when it is empty. Either way, the result has a non-empty URL. |
| Merge.MergeStep | pkg/notify/notifier/wechat/wechat.go:112-153 | A skipped receiver leaves the map unchanged: another type, nil, no config, or a failed key. Otherwise exactly its key is added or updated, and every other entry stays as it was. Maps whose entries all carry configs keep that property. |
| Merge.Merged | pkg/notify/notifier/wechat/wechat.go:110-154 | After the loop, every entry of the map carries a config with a non-empty API URL. |
| Merge.AppendToJoin | pkg/notify/notifier/wechat/wechat.go:138-151 | One destination update appends `"|"` and the value to the join of the earlier values, or nothing for an empty value. The trim never removes anything except the separator in front of the first value. |
| Merge.AppendJoin | pkg/notify/notifier/wechat/wechat.go:138-151 | One destination update turns the join of the earlier receivers' non-empty values into the join for one receiver more. |
| Merge.UpdateEntry | pkg/notify/notifier/wechat/wechat.go:133-153 | Folding one more receiver into an existing entry gives the entry expected for the longer list, and the first receiver's clone is kept. |
| Merge.FirstEntry | pkg/notify/notifier/wechat/wechat.go:133-153 | The first receiver under a key becomes its clone carrying its own destinations. |
| Merge.MergedKeys | pkg/notify/notifier/wechat/wechat.go:110-154 | A key is in the map exactly when some usable receiver's key computation yielded it. |
| Merge.MergedEntry | pkg/notify/notifier/wechat/wechat.go:110-154 | Each entry is the first matching receiver's clone. Its ToUser, ToParty and ToTag are each the `"|"`-join, in input order, of the non-empty values from all receivers with that key. |
| Merge.EmptyContributesNothing | pkg/notify/notifier/wechat/wechat.go:138-151 | A receiver with an empty destination string adds nothing to that merged destination. |
| Merge.LeadingBarRetrimmed | pkg/notify/notifier/wechat/wechat.go:138-141 | Counterexample for a destination that starts with `"|"`: users `"|a"`, then a receiver without users under the same key, leave `"a"`, while the join is `"|a"`. |
| Delivery.TokenKeyCollision | pkg/notify/notifier/wechat/wechat.go:330-334 | The token cache key `CorpID + " | " + AgentID` does not tell receivers apart: corp `"a | b"` with agent `"c"` and corp `"a"` with agent `"b | c"` get the same key, so they share one cached token. |
| Delivery.TokenKeySameCorpLength | pkg/notify/notifier/wechat/wechat.go:330-334 | Between corp ids of the same length, two keys are equal exactly when both the corp ids and the agent ids are. |
| Delivery.SendMessage | pkg/notify/notifier/wechat/wechat.go:180-240 | A retry is requested exactly on code 42001. The error is absent exactly on a reply whose code is not 42001. A failed step returns its own error, and 42001 returns the reply's error text. |
| Delivery.Invalidations | pkg/notify/notifier/wechat/wechat.go:232-235 | An attempt invalidates its own token key once, exactly when its token was rejected. |
| Delivery.Send | pkg/notify/notifier/wechat/wechat.go:242-247 | There are one or two attempts with the same request. There are two exactly when the first is rejected with 42001. The error is the last attempt's. Each attempt rejected with 42001 invalidates the receiver's token key once, and no other attempt invalidates anything. |
| Delivery.SendSucceeds | pkg/notify/notifier/wechat/wechat.go:226-247 | `send` reports no error exactly when its last attempt got a reply other than 42001. |
| Delivery.InvalidatesFetchedKey | pkg/notify/notifier/wechat/wechat.go:330-334 | After a rejection, the key invalidated is the key the token was fetched under. |
| Delivery.RetryThenSuccess | pkg/notify/notifier/wechat/wechat.go:242-247 | A rejection followed by a code-0 reply gives no error after exactly one invalidation. |
| Delivery.NoRetryOtherwise | pkg/notify/notifier/wechat/wechat.go:182-247 | Token, encoding, URL and HTTP failures, and replies other than 42001, are final: a single attempt and no invalidation. A failure returns its own error. |
| Delivery.SecondRejectionFinal | pkg/notify/notifier/wechat/wechat.go:242-247 | After two rejections the second retry flag is ignored. The result is the second reply's error text, with two invalidations. |
| Delivery.FetchToken | pkg/notify/notifier/wechat/wechat.go:288-328 | The fetch succeeds exactly when its request does, and then returns the reply's access token. A failure returns the request's error. A success always reports the lifetime of two hours, whatever lifetime the notifier was configured with. |
| Delivery.FetchFailureFinal | pkg/notify/notifier/wechat/wechat.go:182-186 | When the token service runs the fetch and it fails, `send` makes one attempt, which fails at the token step. It returns the fetch's error and invalidates nothing. |
| Delivery.FetchSuccessTransparent | pkg/notify/notifier/wechat/wechat.go:182-247 | When the fetch succeeds, `send` behaves exactly as the rest of the exchange decides. |
| Notifier.Errors | pkg/notify/notifier/wechat/wechat.go:276-283 | The collected errors are never more than the tasks. |
| Notifier.Notifier.constructor | pkg/notify/notifier/wechat/wechat.go:77-87 | A new notifier has an empty map and the given settings. |
| Notifier.Notifier.Notify | pkg/notify/notifier/wechat/wechat.go:159-284 | The messages are rendered with the constant `MessageMaxSize`, not the configured size. A failed render gives no errors and sends nothing. Otherwise every merged receiver is visited once, its tasks are built in order, and the errors are those the sends report. |
| Notifier.BuildAll | pkg/notify/notifier/wechat/wechat.go:257-281 | The loop over the map visits every key exactly once and concatenates each receiver's tasks in visiting order. |
| Notifier.SendAll | pkg/notify/notifier/wechat/wechat.go:274-283 | Every task is sent, and exactly the errors the sends report are collected, in task order. |
| Notifier.NewWechatNotifier | pkg/notify/notifier/wechat/wechat.go:64-157 | The result is nil exactly when the template fails to load. Otherwise it is a new notifier with the resolved settings whose map is the merge of the whole receiver list, and every entry carries a config. |
| Merge.MergeReceiver | pkg/notify/notifier/wechat/wechat.go:112-153 | The imperative loop body (skips, URL default, clone, key, three trimmed appends, map store) computes exactly one merge step. |
| Merge.AppendTo | pkg/notify/notifier/wechat/wechat.go:138-151 | One imperative destination update (append `"|"` and the value when the value is non-empty, then trim one leading `"|"`) computes the update the merge step specifies. |
| Notifier.AllTasksSendable | pkg/notify/notifier/wechat/wechat.go:168-178 | Every task built from the merged map carries a config, so the agent id it reads always exists. |
| Notifier.TaskRequest | pkg/notify/notifier/wechat/wechat.go:168-178 | Task `r*len(messages)+k` of a receiver posts message `k` to round `r`'s user, party and tag batches. It uses the receiver's agent id with `safe` "0" and `msgtype` "text", the receiver's API URL, and a token fetched under the receiver's key. |
| Notifier.TasksShareToken | pkg/notify/notifier/wechat/wechat.go:286-334 | All tasks of one receiver fetch their token with the same request and fetch and invalidate it under the same key. |
| Notifier.ErrorsAppend | pkg/notify/notifier/wechat/wechat.go:276-283 | The errors of two task lists sent one after the other are the errors of the first, then those of the second. |
| Notifier.AllDelivered | pkg/notify/notifier/wechat/wechat.go:226-228 | When every first attempt is answered with code 0, `Notify` reports no errors. |
| Notifier.ErrorReported | pkg/notify/notifier/wechat/wechat.go:276-283 | Every error that a task's send reports appears among the returned errors. |

## Left out

- HTTP requests, `DoHttpRequest`, `UrlWithPath`/`UrlWithParameters` and JSON encoding and decoding are foreign calls. Their results are folded into the `attempt` oracle and the token fetch's `FetchOutcome`.
- The access-token service (`GetToken`/`InvalidToken`: cache, expiry, single flight) is not part of this model. Invalidations are recorded as keys. Because `go n.invalidToken(...)` runs asynchronously, no ordering is claimed between an invalidation and the retry's token fetch.
- `async.Group`, its goroutines and `Wait` are not part of this model. Sends are modelled one after another in task order. `Wait` is assumed to return the non-nil errors, and the model does not capture that it returns them in completion order.
- In the source, every closure of one receiver captures the same `nw` pointer, and the next round overwrites its destinations, so a goroutine may read a later round's batch. The model gives each task its own copy, which is the batching the loop evidently intends. The data race is concurrency and is not modelled.
- `template.Split` and `NewTemplate` are rendering logic outside the core. They appear as the parameters `split` and `loadTemplate`.
- `GetSecretData` is folded into the fetch outcome. Logging, `ctx`, cancellation and wall-clock time are not modelled.
- The `timeout`, `messageMaxSize` and `tokenExpires` settings are resolved and stored, but nothing in `wechat.go` reads them. The render uses `MessageMaxSize` and the fetch uses `DefaultExpires`, and the model keeps both quirks.
- `Md5key` and the body of `Clone` are not part of this model. `md5key` is a parameter. `Clone` is the stated assumption: a copy with ToUser, ToParty and ToTag emptied.
- The source stores the default API URL back into the caller's receiver (line 123). The model uses the defaulted value but does not model that write into the caller's list.
- Go map iteration order is unspecified. `Notify` picks keys with `:|` and records the order it used as a ghost value.
- The `attempt` oracle is keyed by the request and the attempt number only. Two tasks with the same request (identical message chunks to the same batch) therefore get the same outcomes, while the source makes an independent HTTP call for each. No proved property depends on this.
- `Delivery.TokenKey`, `Delivery.MessageFor`, `Delivery.RequestFor`, `Delivery.TokenRequestFor`, `Delivery.AfterGrant` and `Options.TemplatePath` are plain definitions of the token key, the message, the request, the token request, the token step and the template files. Their properties are stated through `Delivery.TokenKeyCollision`, `Delivery.TokenKeySameCorpLength`, `Notifier.TaskRequest`, `Notifier.TasksShareToken`, `Delivery.FetchFailureFinal` and `Options.TemplateFilesGlobalOnly`.
- The notifier's `notifierCfg`, `logger`, `template` and `ats` fields are not modelled, because only the foreign calls above use them.
- Merge.MergedEntry: proved only when no destination string begins with `"|"`. The source re-applies `TrimPrefix` after every receiver, so such a leading separator can later be removed, and Merge.LeadingBarRetrimmed shows that case.
- Options.TimeoutOverride: the exact-seconds statement covers counts from -9223372036 to 9223372036, whose nanoseconds fit in an int64. Counts outside that range wrap, as `Options.Resolve` models through `WrapInt64`.

Replies with a code other than 0 and 42001 are only logged: `sendMessage` returns a nil error (lines 238-239), so such a rejected delivery is not reported to the caller of `Notify`. The model keeps this behaviour.
