# Assistants API commander: the key-value table and the orchestration rules

This project models the two parts of the assistants-api-commander backend whose behaviour can be stated exactly:

- **The per-user key-value table** (`src/backend/kvstore.py`, module `KVStore` in `kvstore.dfy`). It is one SQLite table of `(username, key, value)` rows with a unique index on the whole triple. Every write is an *upsert*: a DELETE followed by an INSERT.
  - For every key except `"file"`, the DELETE removes all of the user's rows for that key, so those keys hold one value.
  - For `"file"`, the DELETE removes only the identical triple, so a user may hold many file records.
  - Class `Store` holds the rows in table order and the connection's cumulative `total_changes` counter. Its methods state the table they leave in terms of the functions `Filter`, `Select`, `DeleteWhere`, `Upserted`, `FilesAdded` and `AssistantWritten`.
  - `Store.Valid()` says that no two rows clash: no duplicate triple, and no second value of a non-file key. Every writer keeps it.
- **The file record** (`filerecord.dfy`, module `FileRecord`). This is the text `json.dumps({"name": n, "id": i})` writes for an uploaded file, and the `json.loads(value)['id']` read of it when the user is deleted. The round trip is proved.
- **The orchestration rules** (`src/backend/playground.py`, module `Playground` in `playground.dfy`). The remote Assistants API is an oracle:
  - What a remote call answers is a parameter: a script of run states, the thread's message list, a fetch and upload result per URL, and the outcome of a retrieve.
  - What the code asks of the outside world comes back as an ordered log of `Effect`s.
  - Each loop of the source is a `method` with a `while` loop, proved equal to a specification function. The properties the source promises are proved about that function as lemmas.

Behaviour of the source that the model keeps as written:

- `create_assistant` (playground) returns only from its `except` path. When the stored assistant is retrieved, the function falls off its end and returns `None` without writing anything (`Playground.CreateAssistant`).
- `create_thread` and `create_assistant` pass the stored `KVStoreItem`, not its `.value`, to `retrieve`. The model therefore takes the retrieve outcome as an oracle parameter.
- `id != ""` compares an item with a string, so it always holds once an item is found.
- `create_files` (playground) asks for an upload even when the fetch failed. The upload then gets empty content. Only URLs both fetched and uploaded are recorded.
- In `delete_assistant`, a file entry whose record cannot be read makes `json.loads` raise. The outer `except: pass` then skips every later entry. Failures of the remote deletions themselves are swallowed one by one.
- `__delete_value`, and so `del_user`, returns the connection's cumulative `total_changes`, not the number of rows deleted. Deleting a user with no rows still answers the earlier count, which is positive after any earlier write (`KVStore.Store.DelUser`). The `count > 0` test in `main.py` relies on this. The `delete_all` route of `main.py` returns or raises inside its loop once the first user is handled, so the later users are never deleted; the route is not part of this model.
- `kvstore.get_user` is called by `delete_assistant` but is not defined in `kvstore.py`. `Playground.DeleteAssistant` therefore takes the user's entries as a parameter: `None`, empty, or a list of items.
- An image item of a user without a stored uuid is downloaded first. Only then does `__user_folders` raise `AttributeError`, on `.value` of `None`.
- The image URL is `images/<uuid>/` + `/` + `<file_id>.png`, with a literal double slash (`Playground.ImageLocations`).

Parameters in place of the outside world:

- The clock becomes `now` in `ProcessPrompt`. `uuid.uuid4()` becomes `uid` in `CreateAssistant`. Ids of created remote objects are parameters too.
- The thread's messages (`history`) and the run statuses (`script`) are parameters.
- Each URL's fetch outcome and upload answer form a `Fetch`.

## Model

| member | source | states |
|---|---|---|
| KVStore.Filter | src/backend/kvstore.py:27-29 | a WHERE clause's result is no longer than the table |
| KVStore.FilterMembers | src/backend/kvstore.py:46-50 | a row is selected (or spared by a DELETE) iff it is in the table and matches (or does not match) the clause |
| KVStore.FilterOfFilter | src/backend/kvstore.py:72-79 | a second clause whose matches all pass the first sees straight through the first |
| KVStore.FilterDisjoint | src/backend/kvstore.py:72-79 | selecting, among the rows a DELETE spared, a clause the DELETE removed, yields nothing |
| KVStore.FilterPartition | src/backend/kvstore.py:93 | every row is either deleted or kept by a DELETE, so the deleted count plus the kept count is the table size |
| KVStore.FilterConsistent | src/backend/kvstore.py:72-79 | deleting rows keeps the table free of clashes |
| KVStore.UpsertedConsistent | src/backend/kvstore.py:21 | an upsert keeps the table free of duplicate triples and of second values of a non-file key |
| KVStore.UpsertMembers | src/backend/kvstore.py:72-79 | a row is in the upserted table iff it is the new row or an old row the DELETE spared |
| KVStore.UpsertSingleValued | src/backend/kvstore.py:72-74 | after an upsert of a non-file key, the user holds exactly one row for that key, with the new value |
| KVStore.UpsertFileRow | src/backend/kvstore.py:75-79 | after a file upsert, the triple is present exactly once |
| KVStore.UpsertOtherFiles | src/backend/kvstore.py:75-77 | a file upsert leaves the user's other file records as they were |
| KVStore.UpsertKeepsOthers | src/backend/kvstore.py:72-78 | an upsert leaves every selection of another user, another key or another triple unchanged |
| KVStore.UpsertFrame | src/backend/kvstore.py:72-78 | the rows outside `(username, key)` and every other user's rows are untouched by an upsert |
| KVStore.UpsertIdempotent | src/backend/kvstore.py:69-79 | upserting the same triple twice gives the table of upserting it once |
| KVStore.UpsertChangesCount | src/backend/kvstore.py:72-79 | the changes an upsert adds to the counter are the rows its DELETE matches plus one for the INSERT |
| KVStore.UpsertFileHas | src/backend/kvstore.py:75-79 | a file upsert leaves the record it writes in the table |
| KVStore.SingleValued | src/backend/kvstore.py:21 | in a consistent table a non-file key has at most one row per user |
| KVStore.FilesAddedRow | src/backend/kvstore.py:140-142 | after create_files, each pair's record is in the table exactly once |
| KVStore.FilesAddedMembers | src/backend/kvstore.py:140-142 | the rows after create_files are the old rows plus one record per pair, and nothing else |
| KVStore.FilesAddedKeeps | src/backend/kvstore.py:140-142 | create_files deletes no row |
| KVStore.FilesAddedHas | src/backend/kvstore.py:140-142 | the record of every pair is in the table after create_files |
| KVStore.FilesAddedOnly | src/backend/kvstore.py:140-142 | every row after create_files is an old row or the record of one of the pairs |
| KVStore.FilesAddedFrame | src/backend/kvstore.py:140-142 | create_files touches no row other than the user's file records |
| KVStore.FilesAddedConsistent | src/backend/kvstore.py:140-142 | create_files keeps the table free of clashes |
| KVStore.FilesAddedChangesBound | src/backend/kvstore.py:136-142 | create_files adds at least one change per pair to the counter |
| KVStore.AssistantKeys | src/backend/kvstore.py:104-114 | after create_assistant, `id`, `name`, `instructions`, `tools` and `assistant` each hold exactly the given value |
| KVStore.AssistantOtherUsers | src/backend/kvstore.py:104-114 | create_assistant leaves every other user's rows as they were |
| KVStore.AssistantKeepsThread | src/backend/kvstore.py:104-114 | create_assistant's five upserts leave the user's `thread` rows as they were |
| KVStore.DeleteUserRows | src/backend/kvstore.py:90-96 | deleting a user removes all their rows and no row of anyone else; the rows removed are the user's rows |
| KVStore.AllKept | src/backend/kvstore.py:93 | a DELETE whose clause matches no row leaves the table as it was |
| KVStore.Store.constructor | src/backend/kvstore.py:17-21 | a new store is empty, consistent and has counted no change |
| KVStore.Store.ReadValue | src/backend/kvstore.py:24-38 | None iff no row matches `(username, key)`; otherwise a row of the table with that username and key, and for a non-file key the only one |
| KVStore.Store.ReadValues | src/backend/kvstore.py:41-66 | the loop collects exactly the user's rows, or only those of the given key, in table order |
| KVStore.Store.Upsert | src/backend/kvstore.py:69-87 | the table becomes the upserted table, the answer is the new item, the counter grows by the rows deleted plus one, and a non-file key then reads back the new item |
| KVStore.Store.DeleteValue | src/backend/kvstore.py:90-101 | all of the user's rows are deleted, the counter grows by their number, and the cumulative counter is answered |
| KVStore.Store.CreateAssistant | src/backend/kvstore.py:104-114 | the table becomes the one written by the five upserts, the answer is the item for `assistant`, and the counter grows by exactly the changes of those five upserts, so by at least five |
| KVStore.Store.GetUserId | src/backend/kvstore.py:117-118 | None iff the user has no `id` row; otherwise a stored `id` row of that user |
| KVStore.Store.GetAssistant | src/backend/kvstore.py:121-122 | None iff the user has no `assistant` row; otherwise a stored `assistant` row of that user |
| KVStore.Store.CreateThread | src/backend/kvstore.py:125-126 | the thread key is upserted, the user's thread then reads back as the new item, and the counter grows by exactly that upsert's changes |
| KVStore.Store.GetThread | src/backend/kvstore.py:129-130 | None iff the user has no `thread` row; otherwise a stored `thread` row of that user |
| KVStore.Store.CreateFiles | src/backend/kvstore.py:133-142 | an empty user name or pair list answers `[]` and changes neither table nor counter; otherwise one file upsert per pair in order, answering None, with the counter grown by exactly those upserts' changes, at least one per pair |
| KVStore.Store.GetFiles | src/backend/kvstore.py:145-146 | exactly the user's file records |
| KVStore.Store.GetAll | src/backend/kvstore.py:153-154 | exactly the user's rows |
| KVStore.Store.DelUser | src/backend/kvstore.py:157-158 | all of the user's rows are deleted and the answer is the earlier counter plus the rows deleted; a user with no rows leaves table and counter as they were and answers the earlier counter, which is positive after any earlier change |
| FileRecord.ReadString | src/backend/playground.py:291 | reading a JSON string literal consumes at least its closing quote |
| FileRecord.ReadEscaped | src/backend/kvstore.py:141 | the escaped body of a string followed by its closing quote reads back as the string and the text after the quote |
| FileRecord.DecodeEncode | src/backend/kvstore.py:141 | the record create_files writes reads back as its name and id, so `json.loads(...)['id']` gives the uploaded id |
| FileRecord.EncodeInjective | src/backend/kvstore.py:141 | distinct `(name, id)` pairs give distinct records |
| Playground.UserFolders | src/backend/playground.py:20-22 | the folders exist iff the user has a stored `id` row, and then they are built from that row's value |
| Playground.ImageLocations | src/backend/playground.py:20-22 | an image is written to `wwwroot/images/<uuid>/<file_id>.png` and served from `images/<uuid>//<file_id>.png` |
| Playground.PrefixShape | src/backend/playground.py:28-31 | the collected messages are a prefix of the thread, with no user message before the last, ending at a user message when they stop early, and the whole thread when there is no user message |
| Playground.PrefixAtFirstUser | src/backend/playground.py:28-33 | the prefix ends at the first user message, which leads the reversed list |
| Playground.ReverseShape | src/backend/playground.py:33 | reversal keeps the length and reads the elements from the back |
| Playground.Tagged | src/backend/playground.py:37 | one tagged item per content item |
| Playground.TaggedAt | src/backend/playground.py:37 | each tagged item is that content item with its message's role |
| Playground.ResponseShapes | src/backend/playground.py:38-64 | a non-empty text answers its role and text with no image; an image of the user with uuid `uid` answers its role, empty content and the URL `images/<uid>//<file_id>.png` |
| Playground.FlattenConcat | src/backend/playground.py:36-37 | the items of two message lists are the items of the first followed by those of the second |
| Playground.RespondConcat | src/backend/playground.py:36-64 | the reply to two item lists is the reply to the first followed by the reply to the second |
| Playground.ImageEffectsConcat | src/backend/playground.py:43-58 | the image downloads and writes of two item lists come in the same order |
| Playground.RespondBound | src/backend/playground.py:36-64 | at most one response message per content item |
| Playground.RespondFrom | src/backend/playground.py:36-64 | every response message comes from a non-empty text or an image item, with the item's role |
| Playground.RespondTo | src/backend/playground.py:36-64 | every non-empty text item and every image item yields its response message |
| Playground.RespondAllText | src/backend/playground.py:38-42 | when every item is a non-empty text, the reply is those texts one for one, in order |
| Playground.NewestUserTextOnly | src/backend/playground.py:28-42 | a thread whose newest message is the user's non-empty text is answered with that text alone |
| Playground.CollectPrefix | src/backend/playground.py:28-31 | the first loop collects exactly the prefix up to and including the first user message |
| Playground.GetResponseMessages | src/backend/playground.py:25-67 | the answer and the downloads and writes are those of the extraction specification, including the AttributeError raised after the first image download of a user without a uuid |
| Playground.RespondToItems | src/backend/playground.py:37-64 | the inner loop extends the reply and the effects by one message's items, or stops at the first image when the user has no folder |
| Playground.ExtractRaises | src/backend/playground.py:43-49 | with no folder, extraction raises after downloading the first image of the reversed prefix |
| Playground.DispatchSucceeds | src/backend/playground.py:134-155 | the batch runs without an exception exactly when every call has a known name and its required arguments and its tool does not raise |
| Playground.DispatchOutputs | src/backend/playground.py:134-153 | without an exception, one output per call in call order with the call's id; price calls give the price of their symbol, email calls "Email sent" |
| Playground.InvokeOutput | src/backend/playground.py:140-153 | a call that returns answers under its own id: a price call the price of its symbol, an email call "Email sent" |
| Playground.DispatchNeverSubmits | src/backend/playground.py:134-155 | running the calls never submits |
| Playground.DispatchStopsAt | src/backend/playground.py:134-158 | the first call that raises decides the error; the side effects of the calls before it have happened, followed by the lookup or POST of the raising call itself when it got that far, and nothing is submitted |
| Playground.DispatchPrefixError | src/backend/playground.py:134-155 | once a call raises, its own side effect is the last one and the later calls change nothing |
| Playground.CallFunctions | src/backend/playground.py:128-162 | the loop's error and effects are the dispatch specification's: a missing argument or unknown name raises before the tool runs, a raising tool after its lookup or POST, and all outputs are submitted once after the loop only when no call raised |
| Playground.PollStillPolling | src/backend/playground.py:249-267 | the loop is still polling after the script iff no status was terminal and every tool batch was served |
| Playground.PollWaits | src/backend/playground.py:264-267 | each status other than the terminal ones and "requires_action" costs one retrieve and one 5-second sleep, and changes no answer |
| Playground.PollServed | src/backend/playground.py:264-265 | a served "requires_action" runs the tools, submits, and polls on without sleeping |
| Playground.PollCompleted | src/backend/playground.py:252-257 | a completed or a failed run lists the messages and answers what extraction gives |
| Playground.ExpiredOrCancelled | src/backend/playground.py:258-263 | an expired or cancelled run answers an empty list after any number of waits |
| Playground.QueuedActionCompleted | src/backend/playground.py:249-267 | queued, then requires_action, then completed: one sleep, the tools once in order, one submission, then the extracted messages |
| Playground.ProcessPrompt | src/backend/playground.py:235-267 | posts the prompt, creates the run with the date-and-time instructions, then answers and does what the polling specification says |
| Playground.PollOnce | src/backend/playground.py:250-267 | one iteration ends exactly on a terminal status or a raising tool batch, with that step's answer and effects |
| Playground.IndexOf | src/backend/playground.py:97 | the index of the first occurrence is within the string |
| Playground.IndexOfFirst | src/backend/playground.py:97 | the index found holds the character, and no earlier position does |
| Playground.UrlPathShape | src/backend/playground.py:97 | the path component holds neither the query nor the fragment |
| Playground.BasenameShape | src/backend/playground.py:98 | the base name is the longest `/`-free suffix of the path |
| Playground.FileNameShape | src/backend/playground.py:97-98 | a recorded file name holds no `/`, `?` or `#` |
| Playground.Ingested | src/backend/playground.py:96 | the ingested indices name URLs that were both fetched and uploaded |
| Playground.Ids | src/backend/playground.py:105-108 | one id per pair, the pair's id, in order |
| Playground.IngestedIndices | src/backend/playground.py:87-99 | the ingested indices increase and are exactly the URLs both fetched and uploaded |
| Playground.IngestPairs | src/backend/playground.py:87-99 | the recorded pairs are those of the fetched and uploaded URLs, in URL order, each named by the last segment of its URL path |
| Playground.IngestUploads | src/backend/playground.py:87-93 | one upload per URL, fetched or not; the loop raises exactly when an upload does |
| Playground.IngestAfterRaise | src/backend/playground.py:92-93 | once an upload raised, the later URLs are never reached |
| Playground.CreateFiles | src/backend/playground.py:82-111 | the uploads are those of the ingestion specification; the recorded pairs go to the table through create_files; the answer is their ids in URL order, or the upload's exception with table and counter unchanged; the counter grows by exactly the file upserts' changes |
| Playground.CreateThread | src/backend/playground.py:114-125 | the stored thread item is retrieved when there is one and kept when the retrieve answers a thread, otherwise a thread is created; the thread key is always upserted with the resulting id, and the counter grows by that upsert's changes |
| Playground.RecordNewAssistant | src/backend/playground.py:175-232 | the assistant is created with the fixed tool schema, the five keys recorded, then the thread kept or created by the thread rule; the ids and schema are answered and the counter grows by exactly the changes of the six upserts |
| Playground.CreateAssistant | src/backend/playground.py:165-232 | the stored assistant item is retrieved when there is one; when that answers an assistant, None with table and counter unchanged; otherwise the new assistant is recorded, and the thread id in the answer follows the reuse-or-create rule on the thread stored before the call |
| Playground.DeletionOnlyRemote | src/backend/playground.py:277-296 | every deletion request comes from an assistant, thread or readable file entry, and there are no more requests than entries |
| Playground.ReadablePrefix | src/backend/playground.py:277-298 | the entries before the first unreadable file record all have readable file records, and the entry it stops at is an unreadable file record |
| Playground.DeletionInOrder | src/backend/playground.py:277-296 | the requests are, in entry order, exactly one per assistant, thread and file entry before the first unreadable file record, and none after it |
| Playground.RequestsOfMembers | src/backend/playground.py:284-293 | every entry with a request finds it among the requests of its entries |
| Playground.DeletionCoversAll | src/backend/playground.py:277-296 | when every file record can be read, the requests are exactly one per assistant, thread and file entry, in entry order |
| Playground.FileEntryDeletion | src/backend/playground.py:290-293 | the record create_files wrote asks for deletion of the very id that was uploaded |
| Playground.DeletionStopsAtBadRecord | src/backend/playground.py:290-298 | an unreadable file record ends the loop: no later entry gets a request |
| Playground.DeleteAssistant | src/backend/playground.py:270-305 | "User not found" for no entries; otherwise the deletion requests in entry order, then the folder removal when the user has a uuid, and None whatever they do |

## Left out

- Storage errors: the `except` paths of `__read_value`, `__read_values`, `__upsert_value` (None) and `__delete_value` (-1) are not modelled; every SQL statement succeeds.
- SQLite row order: the table keeps rows in insertion order, and `Store.ReadValue` answers the first. SQLite does not promise this order.
- Concurrency and durability: `check_same_thread=False` and the missing atomicity across several upserts are not modelled.
- FileRecord.Escape and FileRecord.Encode: only `"` and `\` are escaped. `json.dumps` also escapes control characters and non-ASCII text; that is not modelled. `Decode` reads only the layout `Encode` writes, not every JSON object.
- Playground.FileName: `urlparse` is approximated by scheme, `//netloc`, query and fragment. The `;params` split and the rest of the RFC 3986 edge cases are not modelled.
- Image bytes are not modelled: the download and the file write are the effects `DownloadedImage` and `WroteImage`, and `shutil.rmtree` is `RemoveFolderRequested`. The `os.path.exists` test and `os.makedirs` are not modelled; they change no answer.
- Every remote call is logged as an effect: the message post, run creation, run retrieves, message listing, file downloads, the tool-output submission, each URL fetch with its upload, the thread and assistant retrieves and creates, and the deletions. The stock price is an opaque `PriceOf(symbol)`, with no float value.
- Remote failures: only `files.create`, `threads.retrieve`, `assistants.retrieve`, the stock-price lookup and the email POST may raise in the model. `runs.retrieve`, `submit_tool_outputs`, `files.content`, `threads.create`, `assistants.create`, `messages.create`, `messages.list` and `runs.create` are taken never to raise, and the `requests.get` of `__read_file_from_url` only answers fetched or not.
- Tool failures: whether `tools.get_stock_price` or `tools.send_logic_apps_email` raises is the call's `toolRaises` flag, and the exception is the single `ToolError` of that tool; which yfinance or HTTP error it is is not modelled.
- `time.sleep` is the effect `Slept(5)`. The polling loop runs over a finite script of statuses; a run that never ends is the answer `StillPolling` when the script runs out.
- `datetime.now().strftime("%x %X")` is the parameter `now`; `uuid.uuid4()` is the parameter `uid`.
- `json.loads` of the tool-call arguments is not modelled: a call carries its arguments already parsed, as a string map.
- `print` and `logging` calls are not modelled.
- `kvstore.delete_file` calls `__delete_value` with two arguments and cannot run. `kvstore.tests` calls `create_assistant` with the wrong number of arguments. Neither is modelled.
- `main.py` (the HTTP routes), `tools.py` (the yfinance lookup and the Logic Apps email POST; the email is an effect), `settings.py`, `models.py` beyond the `ResponseMessage` shape, and the frontend are not part of this model.
