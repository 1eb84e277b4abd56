# Task-queue inspector: queue snapshots and the atomic move to the ready list

This project models the inspection core of the asynq task-queue broker
(`internal/rdb/inspect.go`). The broker keeps tasks, as JSON task messages, in
five keys of a Redis store:

- the ready list `defaultQ`;
- the active list `inProgressQ`;
- the sorted sets `scheduledQ`, `retryQ` and `deadQ`, whose scores are Unix
  times.

The inspector does two things:

- **Snapshot readers.** `CurrentStats` counts the five keys.
  `ListEnqueued`, `ListInProgress`, `ListScheduled`, `ListRetry` and
  `ListDead` decode each member into a read-only summary. `ListEnqueued`
  fails on the first member that does not decode. The other four skip such
  members.
- **Atomic move.** `removeAndEnqueue` is a Lua script run atomically by the
  store. It scans the members of a sorted set whose score equals a given
  score, in set order. It decodes each one. The first whose `ID` is the
  requested ID is removed from the set (ZREM) and pushed onto the head of
  the ready list (LPUSH), and the script returns 1. If no member matches,
  it returns 0. `Rescue` (dead), `RetryNow` (retry) and `ProcessNow`
  (scheduled) call it and turn a count of 0 into `ErrTaskNotFound`.

Layout:

- `task.dfy` (module `Task`): the task message and the summary records, the
  error kinds, and the conversion of a score to whole seconds.
- `collect.dfy` (module `Collect`): the two loop shapes of the readers as
  functions on sequences, with their laws. One shape skips entries
  (`FilterMap`); the other is all-or-nothing (`AllOrNothing`).
- `store.dfy` (module `Store`): the five keys as a value (`Queues`), the
  sorted-set commands the script uses, and the script as a function
  (`RunScript`). It also holds the lemmas about the script: first match,
  no match, conservation, the ID invariant, double submission and counts.
- `readers.dfy` (module `Readers`): what each reader returns, as a function
  of what the key holds, and the lemmas about the two decode policies.
- `inspect.dfy` (module `Inspect`): class `RDB`, whose fields are the five
  keys. The readers are loops proved equal to the `Readers` functions. The
  script is a loop that mutates the fields, proved equal to `RunScript`.

Decoding is left abstract. `Decoder` is any function from a member string to
an optional `TaskMessage`. The same decoder stands for Go's `json.Unmarshal`
and for the script's `cjson.decode`. If `cjson.decode` fails on a candidate
before the first match, the script raises. That error surfaces as the
script's `err`, so the model gives `ScriptError` and changes nothing. No write
comes before that point in the script, so nothing needs rolling back.

A failed round trip to the store is the parameter `fault`. When it is set, a
method returns `BackendError` and the store is unchanged.

Two behaviours of the code are worth stating plainly:

- A repeated move of the same (ID, score) pair reports "not found" when no
  other member with that score carries the ID and every member of that score
  bucket decodes (`Store.SecondMoveFindsNothing`). The system-wide rule that
  each task ID is held at most once implies the first condition
  (`Store.UniqueIdsOneHolder`). When two distinct members with the same ID
  share the score, the repeat moves the second one
  (`Store.RepeatMovesSecondCopy`). When a member of the bucket does not
  decode, the repeat can raise a script error. A member with the same ID but
  another score plays no part.
- The readers turn a score into whole seconds only: `int64(score)` truncates
  toward zero.

## Model

| member | source | states |
|---|---|---|
| `Task.UnixSeconds` | internal/rdb/inspect.go:155 | `int64(score)` truncates toward zero: the result is within one second of the score, at or below it for non-negative scores and at or above it for negative ones |
| `Collect.FilterMap` | internal/rdb/inspect.go:121-134 | a skipping reader never lists more tasks than there are entries |
| `Collect.FilterMapConcat` | internal/rdb/inspect.go:121-134 | a skipping reader's output for two concatenated inputs is the two outputs concatenated, so stored order is kept |
| `Collect.FilterMapSkips` | internal/rdb/inspect.go:124-127 | an entry that does not convert is dropped and leaves the output around it unchanged |
| `Collect.FilterMapKeepsAll` | internal/rdb/inspect.go:121-134 | when every entry converts, output `i` is the conversion of entry `i` |
| `Collect.FilterMapDropsAll` | internal/rdb/inspect.go:145-154 | when no entry converts, the output is empty and not an error |
| `Collect.FilterMapSound` | internal/rdb/inspect.go:121-134 | a skipping reader invents nothing: every task it lists is the conversion of some entry |
| `Collect.AllOrNothing` | internal/rdb/inspect.go:98-112 | a result exists exactly when every entry converts, and then it has entry `i` converted at position `i` |
| `Store.Bucket` | internal/rdb/inspect.go:271 | ZRANGEBYSCORE with min = max = score holds exactly the members stored with that score |
| `Store.RemoveMember` | internal/rdb/inspect.go:275 | ZREM never grows the set |
| `Store.RemoveMemberContents` | internal/rdb/inspect.go:275 | ZREM keeps exactly the entries of other members |
| `Store.RemoveAbsent` | internal/rdb/inspect.go:275 | ZREM of a member the set does not hold changes nothing |
| `Store.RemoveMemberAt` | internal/rdb/inspect.go:275 | in a sorted set with unique members, ZREM removes exactly the one entry at the member's position |
| `Store.RemoveAtKeepsValid` | internal/rdb/inspect.go:275 | removing one entry keeps members unique and scores ascending |
| `Store.RemoveMemberConserves` | internal/rdb/inspect.go:275 | ZREM of a held member: one entry fewer, only that member's string is lost, and the set stays sorted |
| `Store.FindMember` | internal/rdb/inspect.go:272-280 | a found member is a candidate with the requested ID, and "no match" holds exactly when every candidate decodes to another ID |
| `Store.FindMemberStopsAtFirst` | internal/rdb/inspect.go:272-279 | the scan stops at the first candidate that does not decode to another ID: that candidate is found if it has the ID, and the script raises if it does not decode |
| `Store.MoveMember` | internal/rdb/inspect.go:275-276 | ZREM then LPUSH: the ready list gains the member string unchanged at its head, the source set loses it, and the other keys are unchanged |
| `Store.RunScript` | internal/rdb/inspect.go:270-280 | the script returns only 1, 0 or an error; anything but 1 changes nothing; on 1 the moved member was in the set with that score and the ID, and is now the new head of the ready list; the active list and the other two sets never change |
| `Store.MoveTakesFirstMatch` | internal/rdb/inspect.go:271-277 | successful move: if candidate `i` is the first with the ID and all earlier ones decode, exactly that member is moved and the count is 1 |
| `Store.MoveMemberConserves` | internal/rdb/inspect.go:275-276 | moving a held member keeps the sets sorted, shrinks the source by one, and keeps the multiset of all members of the five keys |
| `Store.MoveConserves` | internal/rdb/inspect.go:275-277 | conservation for the script: the source set has one fewer member and the ready list one more, and the multiset of all members is unchanged |
| `Store.MoveKeepsIdsUnique` | internal/rdb/inspect.go:275-276 | if each task ID is held by at most one member of one key before a move, the same holds after it |
| `Store.NoOtherHolder` | internal/rdb/inspect.go:274-276 | under that invariant, no entry left in the set after the move has the moved ID |
| `Store.UniqueIdsOneHolder` | internal/rdb/inspect.go:271-274 | under the one-holder-per-ID invariant, at most one member of any score bucket has a given ID |
| `Store.SecondMoveFindsNothing` | internal/rdb/inspect.go:271-280 | when no other member with that score carries the ID, repeating a successful move changes nothing: it returns 0, or the script error if the bucket holds an undecodable member; it returns 0 when every member of the bucket decodes |
| `Store.RepeatMovesSecondCopy` | internal/rdb/inspect.go:271-277 | as written, two distinct members with the same ID and score are both moved by two identical runs, each returning 1, leaving the ready list `[b, a]` and the set empty |
| `Store.MoveError` | internal/rdb/inspect.go:232-238 | the wrappers succeed exactly when the count is non-zero and there is no error, return `ErrTaskNotFound` for a count of 0, and pass any error through |
| `Store.ScanStops` | internal/rdb/inspect.go:272-280 | a scan that does not run off the end stops at a first candidate that it does not pass over |
| `Store.MoveOutcome` | internal/rdb/inspect.go:269-284 | as an operator sees it, in terms of the candidates alone: success exactly when the first candidate not passed over has the ID, `ErrTaskNotFound` exactly when every candidate decodes to another ID, the script error exactly when the first candidate not passed over does not decode |
| `Store.DistinctMembers` | internal/rdb/inspect.go:75-77 | a sorted set with unique members has as many distinct members as entries |
| `Store.ZCardCountsMembers` | internal/rdb/inspect.go:75-77 | for a valid sorted set, the number of distinct members equals the number of entries |
| `Store.Cardinalities` | internal/rdb/inspect.go:73-77 | LLEN gives the list lengths; ZCARD gives each sorted set's number of distinct members; the timestamp is the call's time |
| `Store.MoveShiftsCounts` | internal/rdb/inspect.go:82-87 | after a successful move the ready count is one more, the source count one less, and the other counts are the same |
| `Readers.EnqueuedList` | internal/rdb/inspect.go:94-112 | ListEnqueued succeeds exactly when every ready member decodes, and then lists one task per member in stored order with its ID, type and payload; otherwise it is a decode error |
| `Readers.ZRangeWithScores` | internal/rdb/inspect.go:140 | ZRANGE 0 -1 WITHSCORES returns every entry in set order, each member a string, with its score |
| `Readers.EnqueuedOf` | internal/rdb/inspect.go:101-110 | a ready member gives a summary exactly when it decodes, with the message's ID, type and payload |
| `Readers.InProgressOf` | internal/rdb/inspect.go:123-132 | an active member gives a summary exactly when it decodes, with the message's ID, type and payload |
| `Readers.ScheduledOf` | internal/rdb/inspect.go:146-161 | a reply entry gives a summary exactly when its member is a string that decodes; then ID, type and payload are copied and ProcessAt is the score in whole seconds |
| `Readers.RetryOf` | internal/rdb/inspect.go:175-193 | a reply entry gives a summary exactly when its member is a string that decodes; then ID, type, payload, ErrorMsg, Retry and Retried are copied and ProcessAt is the score in whole seconds |
| `Readers.DeadOf` | internal/rdb/inspect.go:206-222 | a reply entry gives a summary exactly when its member is a string that decodes; then ID, type, payload and ErrorMsg are copied and LastFailedAt is the score in whole seconds |
| `Readers.InProgressList` | internal/rdb/inspect.go:121-134 | ListInProgress lists at most one task per member, each the summary of some active member |
| `Readers.ScheduledList` | internal/rdb/inspect.go:145-163 | ListScheduled lists at most one task per reply entry, each the summary of some entry |
| `Readers.RetryList` | internal/rdb/inspect.go:174-195 | ListRetry lists at most one task per reply entry, each the summary of some entry |
| `Readers.DeadList` | internal/rdb/inspect.go:205-224 | ListDead lists at most one task per reply entry, each the summary of some entry |
| `Readers.CorruptEntryPolicy` | internal/rdb/inspect.go:99-127 | one corrupt member makes ListEnqueued fail, while ListInProgress drops it and lists the members before and after it in order |
| `Readers.InProgressListsAll` | internal/rdb/inspect.go:116-134 | when every active member decodes, ListInProgress lists one task per member in order with its ID, type and payload |
| `Readers.ScoredReadersSkip` | internal/rdb/inspect.go:145-154 | ListScheduled, ListRetry and ListDead drop an entry whose member is not a string or does not decode, never fail on it, and keep the rest in order |
| `Readers.ScheduledListsAll` | internal/rdb/inspect.go:155-161 | when every entry is readable, ListScheduled lists one task per entry, with ProcessAt the score in whole seconds |
| `Readers.RetryListsAll` | internal/rdb/inspect.go:184-192 | when every entry is readable, ListRetry copies ID, type, payload, ErrorMsg, Retried and Retry, with ProcessAt the score in whole seconds |
| `Readers.DeadListsAll` | internal/rdb/inspect.go:215-222 | when every entry is readable, ListDead copies ID, type, payload and ErrorMsg, with LastFailedAt the score in whole seconds |
| `Readers.ScoredReadersEmpty` | internal/rdb/inspect.go:168-195 | an empty or entirely unreadable reply lists nothing and is not an error |
| `Readers.MovedTaskListedFirst` | internal/rdb/inspect.go:276 | after a successful move, a successful ListEnqueued shows the moved task first |
| `Readers.RescueTwice` | internal/rdb/inspect.go:230-239 | a task held only by the dead queue is rescued once: the dead queue becomes empty and the task is the only ready task; a second rescue returns `ErrTaskNotFound` and changes nothing |
| `Inspect.RDB.CurrentStats` | internal/rdb/inspect.go:71-90 | the five counts are the lengths of the five keys, with the time of the call; a failed pipeline gives no counts at all |
| `Inspect.RDB.ListEnqueued` | internal/rdb/inspect.go:93-113 | the loop with early return computes `EnqueuedList` of the ready list; a failed LRANGE is a backend error |
| `Inspect.RDB.ListInProgress` | internal/rdb/inspect.go:116-135 | the loop with `continue` computes the skipping list of the active list |
| `Inspect.RDB.ListScheduled` | internal/rdb/inspect.go:139-164 | the loop computes the skipping list of the scheduled set's ZRANGE reply |
| `Inspect.RDB.ListRetry` | internal/rdb/inspect.go:168-196 | the loop computes the skipping list of the retry set's ZRANGE reply |
| `Inspect.RDB.ListDead` | internal/rdb/inspect.go:199-225 | the loop computes the skipping list of the dead set's ZRANGE reply |
| `Inspect.RDB.RemoveAndEnqueue` | internal/rdb/inspect.go:269-291 | the script's loop leaves the store and returns the count exactly as `RunScript` does, and keeps the sorted sets valid |
| `Inspect.RDB.ZRem` | internal/rdb/inspect.go:275 | ZREM changes only the named sorted set |
| `Inspect.RDB.LPush` | internal/rdb/inspect.go:276 | LPUSH changes only the ready list, adding the member at its head |
| `Inspect.RDB.Rescue` | internal/rdb/inspect.go:230-239 | runs the script on the dead queue and maps its result with `MoveError` |
| `Inspect.RDB.RetryNow` | internal/rdb/inspect.go:244-253 | runs the script on the retry queue and maps its result with `MoveError` |
| `Inspect.RDB.ProcessNow` | internal/rdb/inspect.go:258-267 | runs the script on the scheduled queue and maps its result with `MoveError` |

## Left out

- The Redis client, the pipeline and the script transport are not modelled.
  A failed round trip is the `fault` parameter, and it leaves the store
  unchanged. The case where the script ran but its reply was lost is not
  modelled.
- Concurrency is not modelled. The script is one atomic method, and no
  other operation interleaves with it. `CurrentStats` is likewise one
  atomic read. The real five counts may come from slightly different
  instants.
- JSON encoding and decoding are abstract (`Decoder`), so the codec
  round-trip law is outside this model. Parsing the ID into a UUID is part
  of that abstract decoding.
- The model uses one decoder for Go and Lua. It does not capture a member
  that `cjson` accepts but Go rejects, or the reverse.
- `EnqueuedList`: returns a plain `DecodeError`. The JSON error of the
  offending member, which Go returns, is not modelled.
- Scores are exact reals. Float64 rounding is not modelled, and neither is
  the formatting of the score into the script's ARGV[1].
- `Task.UnixSeconds`: does not model an int64 overflow when a score is
  outside the int64 range.
- `time.Now()` is the parameter `now`. Times are whole Unix seconds, not
  `time.Time`.
- The int64 type assertion on the script reply
  (internal/rdb/inspect.go:286-289) is not modelled. The script returns
  only 0 or 1, so that branch cannot be reached from the model.
- Among members with equal scores, the model uses stored order. Redis
  orders them lexicographically, and the model does not state that order.
  `ValidZSet` requires only unique members and ascending scores.
- ZCARD is taken as the length of the stored sequence. `Cardinalities`
  proves this equals the number of distinct members for a valid set.
- `TaskMessage` is not part of this model beyond the six fields the
  inspector reads.
