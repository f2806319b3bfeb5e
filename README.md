# LeetCode skill profiles and AI learning roadmaps, modelled in Dafny

The system is made of two serverless handlers.

* The **profile store** (`ProfileStore`, `profile_store.dfy`) takes an
  invocation event with an `operation`. `store_profile` validates the event's
  `user_id` and `profile_data` in a fixed order. It then writes an item to a
  table keyed by user id. The item holds the two topic lists, the solved
  count as an integer, and one timestamp used for both `created_at` and
  `updated_at`. The write fully overwrites any earlier item. `get_profile`
  reads the item back, answering 404 when there is none. Any other operation
  is a 400. The table is a `ProfileTable` object whose `items` map is
  updated in place by `StoreProfile`. The whole effect of a call is also
  given as pure functions of the old table (`StoreOutcome`, `LookupProfile`,
  `HandleOutcome`), and the lemmas are stated over those.
* The **roadmap generator** (`Roadmap`, `roadmap.dfy`) validates
  `weak_topics` and `total_solved` and derives a skill level from the count.
  It builds a prompt from a fixed template and calls a hosted language model
  once. It cuts the JSON payload out of the reply, which may be wrapped in a
  Markdown code fence, and checks the decoded value for a `roadmap` key. The
  response echoes the request.

`json_values.dfy` holds the decoded-JSON value type and Python's
truthiness and number tests. `py_text.dfy` models the Python string
operations the handlers use: `str.find`, `in`, slicing with a negative end,
`str.strip` and `str.join`. Each comes with the facts about it that the
proofs need.

Foreign calls become parameters:

* `invoke` is the model call, including unwrapping its response body. It
  returns `None` when the call raises.
* `decode` is `json.loads`. It returns `None` on a decoding error.
* `now` is the clock reading.
* `tableFails` says whether the table call raises.

Behaviour of the code that the model keeps:

* `strong_topics` must be a list. Omitting it is a 400. There is no empty
  default.
* Every store overwrites `created_at` with the time of that store.
* Both handlers echo exception text in their 500 messages. The model has no
  message text, so this shows only as a failure kind.
* The decoded model reply is tested with Python's `in`. That is a key test
  on an object, an element test on a list and a substring test on a string.
  On a number, a boolean or null it raises TypeError, which the handler
  reports as a 500.
* The roadmap handler `HandleRoadmap` takes a `Reading`. With `AsWritten`
  it is the source's handler, with the source's payload extraction and the
  source's `in` test. With `Intended` it uses the corrected extraction and
  requires an object with a `roadmap` key (see "## Findings").
  `ReadingsAgreeOnObjectReplies` shows that the two answer alike whenever
  the reply's fence is closed and its payload decodes to an object. The
  properties of the handler are proved for both readings.
* `get_profile` as written (`LookupProfileAsWritten`) cannot return a
  stored profile (see "## Findings"). The table object and the dispatcher
  use the intended read, `LookupProfile`.

## Model

| member | source | states |
|---|---|---|
| Roadmap.DetermineUserLevel | lambda-functions/task2-bedrock-ai-lambda/lambda_function.py:84-89 | Beginner iff fewer than 50 solved, Intermediate iff 50 up to 199, Advanced iff 200 or more |
| Roadmap.LevelMonotone | lambda-functions/task2-bedrock-ai-lambda/lambda_function.py:84-89 | solving more never gives a lower level |
| Roadmap.LevelBoundaries | lambda-functions/task2-bedrock-ai-lambda/lambda_function.py:84-89 | the thresholds sit exactly between 49/50 and 199/200 |
| PyText.Find | lambda-functions/task2-bedrock-ai-lambda/lambda_function.py:215-220 | `str.find` returns the first occurrence at or after `start`, or -1 when there is none |
| PyText.FindAtFirstCandidate | lambda-functions/task2-bedrock-ai-lambda/lambda_function.py:215-220 | `find` returns an occurrence when nothing before it could start the pattern |
| PyText.FindNoCandidate | lambda-functions/task2-bedrock-ai-lambda/lambda_function.py:216 | `find` returns -1 when no later position could start the pattern |
| PyText.FindInSuffix | lambda-functions/task2-bedrock-ai-lambda/lambda_function.py:216 | searching from the end of a prefix finds the first occurrence in what follows, shifted by the prefix length, or -1 when it holds none |
| PyText.PySlice | lambda-functions/task2-bedrock-ai-lambda/lambda_function.py:217 | Python slicing: an in-range slice is the subsequence, and an end of -1 stops one short of the end |
| PyText.Strip | lambda-functions/task2-bedrock-ai-lambda/lambda_function.py:217 | `str.strip` returns the trimmed middle of its input, with only whitespace removed on either side |
| PyText.StripIgnoresPadding | lambda-functions/task2-bedrock-ai-lambda/lambda_function.py:223 | whitespace around a text does not change its stripped form |
| PyText.StripIdempotent | lambda-functions/task2-bedrock-ai-lambda/lambda_function.py:223 | stripping twice is stripping once |
| PyText.Join | lambda-functions/task2-bedrock-ai-lambda/lambda_function.py:153 | joining no parts gives the empty string, and a join of one or more parts starts with the first part |
| PyText.JoinPartAt | lambda-functions/task2-bedrock-ai-lambda/lambda_function.py:153 | in `sep.join(parts)` each part sits at its offset, followed by the separator except after the last part |
| PyText.JoinLength | lambda-functions/task2-bedrock-ai-lambda/lambda_function.py:153 | the joined length is the parts' lengths plus one separator between each pair |
| PyText.JoinSnoc | lambda-functions/task2-bedrock-ai-lambda/lambda_function.py:153 | joining one more part appends the separator and that part |
| Roadmap.BuildPromptShape | lambda-functions/task2-bedrock-ai-lambda/lambda_function.py:142-198 | build_prompt's prompt opens with the fixed mentor text, the level and the weak-topics label, and closes with the topics joined by ", " and the fixed instructions |
| Roadmap.FillShape | lambda-functions/task2-bedrock-ai-lambda/lambda_function.py:153-159 | for any template, the filled text opens with the head, the level and the text before the topics, and closes with the joined topics and the tail |
| Roadmap.PromptRoundTrip | lambda-functions/task2-bedrock-ai-lambda/lambda_function.py:142-198 | the level and the topics joined by ", " can be read back out of build_prompt's prompt |
| Roadmap.FillRoundTrip | lambda-functions/task2-bedrock-ai-lambda/lambda_function.py:153-159 | for any template, the level and the joined topics can be read back out of the filled template |
| Roadmap.FillDeterminesProfile | lambda-functions/task2-bedrock-ai-lambda/lambda_function.py:153-196 | for any template, build_prompt's included, two equal prompts have the same level and the same joined topics |
| Roadmap.TopicStrings | lambda-functions/task2-bedrock-ai-lambda/lambda_function.py:153 | `join` succeeds exactly when every topic is a string, and then takes those strings in order |
| Roadmap.PayloadStart | lambda-functions/task2-bedrock-ai-lambda/lambda_function.py:214-220 | a payload start exists exactly when the text contains "```". It is just after the first "```json" when there is one, and otherwise just after the first "```" |
| Roadmap.ExtractPayloadAsWritten | lambda-functions/task2-bedrock-ai-lambda/lambda_function.py:214-223 | the source's payload, always trimmed. An unfenced text is stripped whole. A closed fence gives the stripped slice up to the next "```". An unclosed fence gives the stripped slice that stops one short of the end |
| Roadmap.ExtractPayload | lambda-functions/task2-bedrock-ai-lambda/lambda_function.py:214-223 | the corrected payload: the same, except that an unclosed fence gives the stripped rest of the text |
| Roadmap.PayloadReadingsAgreeWhenClosed | lambda-functions/task2-bedrock-ai-lambda/lambda_function.py:214-223 | the source's payload extraction and the corrected one agree unless an opening fence is left unclosed |
| Roadmap.UnfencedPayload | lambda-functions/task2-bedrock-ai-lambda/lambda_function.py:222-223 | a reply with no fence is its own payload, stripped |
| Roadmap.ClosedPayload | lambda-functions/task2-bedrock-ai-lambda/lambda_function.py:214-221 | when the fence opens at `start` and the next "```" closes it after `content`, both readings give `content` stripped |
| Roadmap.UnclosedPayload | lambda-functions/task2-bedrock-ai-lambda/lambda_function.py:214-221 | when the fence opens at `start` and nothing follows to close it, the corrected payload is the stripped rest and the source's is the stripped rest without its last character |
| Roadmap.JsonFencedPayload | lambda-functions/task2-bedrock-ai-lambda/lambda_function.py:214-217 | the payload of a reply with a closed "```json" fence is the fenced content, stripped, whatever follows the fence. Backticks may appear before and inside the fence |
| Roadmap.PlainFencedPayload | lambda-functions/task2-bedrock-ai-lambda/lambda_function.py:218-221 | the payload of a reply with a closed plain "```" fence (and no "```json") is the fenced content, stripped |
| Roadmap.UnclosedJsonFence | lambda-functions/task2-bedrock-ai-lambda/lambda_function.py:214-217 | for an unclosed "```json" fence, the corrected payload is all the content, and the source's payload is the content without its last character, stripped |
| Roadmap.UnclosedPlainFence | lambda-functions/task2-bedrock-ai-lambda/lambda_function.py:218-221 | the same for an unclosed plain fence |
| Roadmap.UnclosedFenceDropsLastChar | lambda-functions/task2-bedrock-ai-lambda/lambda_function.py:215-217 | for a trimmed, unclosed fenced payload, the source hands `json.loads` exactly that payload minus its last character, stripped, and so a shorter text than the intended reading |
| Roadmap.RoadmapTestsAgreeOnObjects | lambda-functions/task2-bedrock-ai-lambda/lambda_function.py:228 | on a decoded object, the source's `'roadmap' not in` test is the key test |
| Roadmap.RoadmapTestAcceptsNonObjects | lambda-functions/task2-bedrock-ai-lambda/lambda_function.py:228-231 | the source's test accepts a list holding "roadmap", and a string containing it, although neither has the key |
| Roadmap.ParseAiResponseAsWritten | lambda-functions/task2-bedrock-ai-lambda/lambda_function.py:201-236 | the source's parse: invalid JSON exactly when decoding fails; an uncaught TypeError exactly when the decoded value cannot be searched with `in`; success exactly when `in` finds "roadmap", and the success is the decoded value |
| Roadmap.ParseAiResponse | lambda-functions/task2-bedrock-ai-lambda/lambda_function.py:225-231 | the corrected reading: success exactly when the corrected payload decodes to an object with a `roadmap` key, and that object is the result; invalid JSON exactly when decoding fails |
| Roadmap.ParsesAgreeOnObjects | lambda-functions/task2-bedrock-ai-lambda/lambda_function.py:214-231 | with a closed fence (or none) and an object payload, the source's parse and the corrected one give the same result |
| Roadmap.CallModel | lambda-functions/task2-bedrock-ai-lambda/lambda_function.py:103-139 | exactly one model call with the given prompt. A failed call is a 500. Success exactly when the reply parses, and the success carries the parsed roadmap. Every parse failure is a 500 of its own kind |
| Roadmap.ListReplyReadings | lambda-functions/task2-bedrock-ai-lambda/lambda_function.py:228-231 | a reply decoding to ["roadmap"] is returned as the roadmap by the source's handler and is a 500 in the corrected one |
| Roadmap.ValidateRequest | lambda-functions/task2-bedrock-ai-lambda/lambda_function.py:36-47 | the checks run in order: falsy topics (after defaulting to []), then topics not a list, then total not a number. Valid exactly when all pass, and a valid request holds the event's values |
| Roadmap.HandleRoadmap | lambda-functions/task2-bedrock-ai-lambda/lambda_function.py:34-71 | in either reading: a validation failure is a 400 and the model is never called. 400 exactly for validation errors, otherwise 500. The model is called exactly for a valid request whose topics are all strings |
| Roadmap.HandleRoadmapPrompt | lambda-functions/task2-bedrock-ai-lambda/lambda_function.py:50-53 | in either reading, every valid request whose topics are all strings sends build_prompt's prompt for those topics and the derived level |
| Roadmap.HandleRoadmapFailures | lambda-functions/task2-bedrock-ai-lambda/lambda_function.py:50-71 | in either reading, a non-string topic is a 500 before any model call, and a failed model call is a 500 |
| Roadmap.HandleRoadmapParsed | lambda-functions/task2-bedrock-ai-lambda/lambda_function.py:53-71 | in either reading, once the model has replied to the prompt, the handler succeeds exactly when that reading's parse succeeds, and otherwise answers 500 with the parse's failure |
| Roadmap.HandleRoadmapSuccess | lambda-functions/task2-bedrock-ai-lambda/lambda_function.py:57-67 | in either reading, a success carries that reading's parse of the reply as its roadmap, and echoes `weak_topics` and `total_solved` with the derived level and the timestamp |
| Roadmap.PromptCarriesProfile | lambda-functions/task2-bedrock-ai-lambda/lambda_function.py:50-53 | the prompt the model receives reads back as the level for the request's count and its topics joined in order |
| Roadmap.ReadingsAgreeOnObjectReplies | lambda-functions/task2-bedrock-ai-lambda/lambda_function.py:34-71 | when the reply's fence is closed (or absent) and its payload decodes to an object, the source's handler and the corrected one answer alike |
| Roadmap.CallModelReadingsAgree | lambda-functions/task2-bedrock-ai-lambda/lambda_function.py:103-139 | the same for one model call |
| Roadmap.BeginnerScenario | lambda-functions/task2-bedrock-ai-lambda/lambda_function.py:24-67 | to the source's handler, one string topic and 35 solved, with a reply whose payload decodes to an object with a roadmap, give a 200 at Beginner level that echoes the request |
| ProfileStore.ParseOperation | lambda-functions/task1-dynamodb-lambda/lambda_function.py:37-44 | store exactly for "store_profile", get exactly for "get_profile", otherwise no operation |
| ProfileStore.HandleOutcome | lambda-functions/task1-dynamodb-lambda/lambda_function.py:36-48 | an unknown operation is a 400 and leaves the table untouched. The two operations are dispatched. Every status is 200, 400, 404 or 500 |
| ProfileStore.ValidateStore | lambda-functions/task1-dynamodb-lambda/lambda_function.py:62-79 | the checks run in order: falsy user id, then falsy profile data, then profile data that is no object (500), then weak_topics not a list, then strong_topics not a list, then total_solved not a number. Valid exactly when all pass, with the request holding the inputs and `int(total_solved)` |
| ProfileStore.StoreOutcome | lambda-functions/task1-dynamodb-lambda/lambda_function.py:61-110 | a rejected request leaves the table as it was. Status 400 exactly for validation errors, 500 otherwise. A valid request that the table rejects, or a failing put, is a 500 StoreFailed. A success writes at its key exactly the item it returns, built from the request and stamped `created_at == updated_at == now` |
| ProfileStore.LookupProfile | lambda-functions/task1-dynamodb-lambda/lambda_function.py:123-152 | the intended read: a falsy id is a 400. A failing read, or an id the table rejects, is a 500 RetrieveFailed. An absent key is exactly the 404. Retrieval succeeds exactly for a present key and returns the stored item |
| ProfileStore.LookupProfileAsWritten | lambda-functions/task1-dynamodb-lambda/lambda_function.py:123-152 | the source's read: a falsy id is a 400 and an absent key exactly the 404. Nothing is ever retrieved: a present key is a 500, like a failing read |
| ProfileStore.ProfileTable.StoreProfile | lambda-functions/task1-dynamodb-lambda/lambda_function.py:81-106 | the new table is the old one updated at the key with the returned item, or unchanged when the store fails |
| ProfileStore.ProfileTable.GetProfile | lambda-functions/task1-dynamodb-lambda/lambda_function.py:123-148 | the read answers as LookupProfile on the current table and modifies nothing |
| ProfileStore.ProfileTable.Handle | lambda-functions/task1-dynamodb-lambda/lambda_function.py:21-48 | the call's response and new table are HandleOutcome of the old table |
| ProfileStore.GetAfterStore | lambda-functions/task1-dynamodb-lambda/lambda_function.py:85-148 | a read right after a successful store for the same id returns exactly the item the store returned |
| ProfileStore.StoredProfileUnreadable | lambda-functions/task1-dynamodb-lambda/lambda_function.py:85-152 | right after a successful store, the source's read of the same id answers 500, where the intended read returns the item |
| ProfileStore.StoreLeavesOtherProfiles | lambda-functions/task1-dynamodb-lambda/lambda_function.py:95 | a store changes no read of any other user id |
| ProfileStore.StoreOverwritesCreatedAt | lambda-functions/task1-dynamodb-lambda/lambda_function.py:83-95 | after two stores for one user, both timestamps are the second store's |
| ProfileStore.StoreIdempotent | lambda-functions/task1-dynamodb-lambda/lambda_function.py:95 | repeating a store with the same clock reading changes nothing further |
| ProfileStore.ValidationNeverTouchesTable | lambda-functions/task1-dynamodb-lambda/lambda_function.py:66-79 | a rejected request gets the same answer whatever the table holds or does, and leaves the table as it was |
| ProfileStore.NeverStoredIsNotFound | lambda-functions/task1-dynamodb-lambda/lambda_function.py:135-136 | in an empty table every well-formed read is a 404 |
| ProfileStore.StoreThenGetScenario | lambda-functions/task1-dynamodb-lambda/lambda_function.py:21-152 | storing the sample profile for "user123" and then reading it with the intended read returns the lists, the count 150 and the store's timestamp |

## Left out

- The AWS SDK calls are not modelled beyond their outcome. These are the
  model client and `invoke_model` with its request body (model id,
  temperature, token limit), the unwrapping of `content[0].text`, and
  `Table`, `put_item` and `get_item`. The model call is the parameter
  `invoke`, and a table call that raises is the parameter `tableFails`.
- `json.loads` and `json.dumps` are foreign library code. Decoding is the
  parameter `decode`, and response bodies are datatypes rather than
  serialised text.
- Floating-point `total_solved` is not modelled, because numbers are
  integers here. A float would pass the number check, be truncated by
  `int(...)` in the store, and be compared unconverted in the level
  thresholds. `bool` counts as a number, as in Python.
- The clock is the parameter `now`, and logging (`print`) has no effect on
  the model.
- The table name from the environment, the region and the model id are
  configuration with no bearing on behaviour.
- The wording of error messages is not modelled, and neither is the
  timestamp in the error envelope (`error_response`). A response carries a
  status code and an error kind.
- Concurrency between invocations and the table's own consistency model are
  not modelled.
- ProfileStore.StoreOutcome: the table's key schema is not part of the
  code. A truthy `user_id` that is not a string is therefore modelled as
  rejected by the table, a 500 after validation, and the same holds for
  `get_profile`.
- ProfileStore.ValidateStore: topic list elements are not checked, because
  the code does not check them. A list of non-strings is stored as given.
- Roadmap.BuildPrompt and Roadmap.Fill carry no `ensures` of their own.
  Their properties are the lemmas BuildPromptShape, FillShape,
  PromptRoundTrip, FillRoundTrip and FillDeterminesProfile. This keeps the
  long prompt text out of every handler proof.
- PyText.IsWhitespace uses Python's `str.isspace` table for code points
  below U+3001. There is no other Unicode treatment.

## Findings

| source | as written | input that shows it | evidently intended | confidence | as-written member | corrected member |
|---|---|---|---|---|---|---|
| lambda-functions/task2-bedrock-ai-lambda/lambda_function.py:215-221 | with an opening fence but no closing one, `find` returns -1, and the -1 used as the slice end drops the reply's last character | a reply "```json\n{\"roadmap\": []}" whose fence is never closed: the payload loses its closing brace and fails to decode | the payload runs to the end of the reply when the fence is not closed | not executed; high | Roadmap.ExtractPayloadAsWritten, Roadmap.UnclosedJsonFence, Roadmap.UnclosedPlainFence, Roadmap.UnclosedFenceDropsLastChar, Roadmap.HandleRoadmap with AsWritten | Roadmap.ExtractPayload, Roadmap.HandleRoadmap with Intended |
| lambda-functions/task2-bedrock-ai-lambda/lambda_function.py:228 | `'roadmap' not in roadmap` is an element test on a list and a substring test on a string, and raises TypeError on a number | a reply "[\"roadmap\"]" or "\"my roadmap\"" passes the check and is returned as the roadmap | the decoded value must be an object with a `roadmap` key | not executed; medium | Roadmap.RoadmapTestAsWritten, Roadmap.ParseAiResponseAsWritten, Roadmap.RoadmapTestAcceptsNonObjects, Roadmap.ListReplyReadings | Roadmap.HasRoadmapKey, Roadmap.ParseAiResponse |
| lambda-functions/task1-dynamodb-lambda/lambda_function.py:141-152 | the item read from the table holds `total_solved` as a `Decimal`, which `json.dumps` cannot serialise; the TypeError is caught and answered as a 500 | storing any valid profile for "user123" and then calling `get_profile` for "user123" | a stored profile is returned with a 200 | not executed; high | ProfileStore.LookupProfileAsWritten, ProfileStore.StoredProfileUnreadable | ProfileStore.LookupProfile, ProfileStore.GetAfterStore |
