# PoolPays command centre — a Dafny model

PoolPays is a browser dashboard for running a marketing team's production pipeline. It has:

- a Kanban board, a task table, a planning backlog, an archive and a dashboard of counts;
- a task editor, whose tasks are written to and read from a database;
- a "neural memory", a vector store of embedded documents kept in browser storage;
- a multi-agent assistant. A supervisor routes each question to one of three specialists (GROWTH, ARCHITECT, GUARDIAN). That specialist searches only its own knowledge folders and answers from a prompt built out of its persona, the recent chat history and the retrieved documents;
- a chat log of conversation threads.

This project models these parts in Dafny and proves what they promise. The modules map onto the source files as follows.

- **Types** (`types.ts`): the records.
- **Data** (`data.ts`): the seed tasks and seed documents.
- **Provider** (`services/gemini.ts`): the embedding and generation calls, as functions of the remote service's reply.
- **VectorStore** (`services/vectorStore.ts`): a class whose methods update its document list and the persisted copy.
- **Retrieval** (`services/vectorStore.ts`): cosine similarity, the stable descending sort, the 0.35 relevance floor and the folder scoping.
- **Agents** (`services/ai.ts`): routing, retrieval and the audit log of `runMultiAgentSystem`.
- **ChatStorage** (`services/chatStorage.ts`): a class over the storage entry.
- **App** (`App.tsx`): the task list and its indexing into the store.
- **TaskService** (`src/services/taskService.ts`): the pure row mapping of the database service.
- **Kanban**, **Dashboard**, **TaskForm**, **Blueprint**, **Archive**, **TaskManager** and **KnowledgeBase**: the components of the same names.
- Shared helpers:
  - **Filters**: the "All" option lists.
  - **Seqs**: filter, distinct and subsequence.
  - **Text**: the JavaScript string methods the source uses.

Code that changes state step by step is modelled as imperative Dafny:

- the vector store;
- the chat storage;
- the App state;
- the knowledge-base form;
- the loops in `initializeMemory`, `indexTask`, `handleUpdateStatus` and `cosineSimilarity`.

Each of these has `ensures` clauses tying the new state to specification functions, and lemmas prove the source's promises about those functions. Code that only computes is modelled as functions and lemmas.

Where the design description and the code disagree, the model follows the code:

- **Folders shared between roles.** Every specialist may read the CORE_IDENTITY folder.
- **Document lookup by type.** `getDocumentsByType` matches a document whose type *or* category equals the argument.
- **Supervisor failures.** `generateText` never throws: it returns a diagnostic text instead. So a failed classification call is read like any other reply, and it lands on GUARDIAN with a DELEGATION entry. The ERROR branch (`services/ai.ts:142-145`) is kept as a `Rejected` supervisor outcome, for a rejection that comes from elsewhere.

## Model

| member | source | states |
|---|---|---|
| Types.StatusRoundTrip | types.ts:1-8 | writing a status as text and parsing it back gives the same status; every stored string survives the reverse trip, including values outside the enumeration |
| Types.CategoryOf | services/vectorStore.ts:72 | a missing or empty category reads as GENERAL; any other category is kept |
| Provider.GetEmbedding | services/gemini.ts:14-31 | blank text is never sent and gives `[]`; a failed call gives `[]`; otherwise the service's vector |
| Provider.GenerateText | services/gemini.ts:36-46 | the reply text, `""` when the text is absent, or a non-empty diagnostic when the call fails; never an exception |
| VectorStore.WithoutId | services/vectorStore.ts:51-54 | exactly the documents whose id differs are kept |
| VectorStore.WithoutIdFacts | services/vectorStore.ts:51-54 | dropping an id keeps the order of the rest, is a no-op for an absent id, and keeps ids unique |
| VectorStore.RemoveFacts | services/vectorStore.ts:51-54 | after a removal no document has the id and every other document is still stored, in order |
| VectorStore.UpsertReplaces | services/vectorStore.ts:40-49 | after an upsert the new document, with its embedding, is the only one with its id, it comes last, and every other document is kept |
| VectorStore.UpsertIdempotent | services/vectorStore.ts:40-49 | upserting the same document twice is the same as upserting it once |
| VectorStore.UpsertFresh | services/vectorStore.ts:40-49 | upserting a new id appends the document |
| VectorStore.WithoutIdCount | services/vectorStore.ts:41 | with unique ids, the filter removes exactly one document when the id is stored and none otherwise |
| VectorStore.UpsertCount | services/vectorStore.ts:40-49 | with unique ids, the store grows by one exactly when the id is new |
| VectorStore.UpsertAllFresh | services/vectorStore.ts:30-32 | upserting distinct new ids one after another appends them in order |
| VectorStore.UpsertAllSnoc | services/vectorStore.ts:30-32 | one more loop iteration is one more upsert |
| VectorStore.UpsertAllConcat | services/vectorStore.ts:30-32 | upserting two lists in turn is upserting their concatenation |
| VectorStore.UpsertAllKeeps | services/vectorStore.ts:30-32 | a stored document survives upserts of other ids |
| VectorStore.SeedingStoresSeeds | services/vectorStore.ts:27-34 | seeding an empty store stores exactly the seed documents, in order, each with the embedding of its content |
| VectorStore.CategoryCountsBounded | services/vectorStore.ts:100-107 | the documents in three distinct folders number at most all documents |
| VectorStore.VectorStore.constructor | services/vectorStore.ts:12-25 | a persisted list is restored as is; with nothing persisted the seeds are upserted and written |
| VectorStore.VectorStore.Load | services/vectorStore.ts:16-25 | restores the persisted list; with none it seeds unless already seeded |
| VectorStore.VectorStore.InitializeMemory | services/vectorStore.ts:27-34 | the first call upserts every seed document in order and persists; a second call changes nothing |
| VectorStore.VectorStore.UpsertEach | services/vectorStore.ts:30-32 | the loop leaves the documents that the successive upserts specify, saved after each one |
| VectorStore.VectorStore.Save | services/vectorStore.ts:36-38 | the persisted copy becomes the current documents |
| VectorStore.VectorStore.UpsertDocument | services/vectorStore.ts:40-49 | the same-id document is replaced by the new one carrying the embedding of its content, and the result is persisted |
| VectorStore.VectorStore.RemoveDocument | services/vectorStore.ts:51-54 | every document with the id is dropped and the result persisted |
| VectorStore.VectorStore.CosineSimilarity | services/vectorStore.ts:109-119 | the loop computes the cosine of the specification, including NaN for a stored vector shorter than the query and 0 for a zero norm |
| VectorStore.VectorStore.ScoreCandidates | services/vectorStore.ts:78-82 | the loop pairs each candidate, in order, with -1 when it has no embedding and with its similarity to the query otherwise |
| VectorStore.VectorStore.Search | services/vectorStore.ts:62-91 | an unembeddable query finds nothing; at most `limit` results; each is a stored in-scope document scoring above 0.35; results come best first |
| VectorStore.VectorStore.GetDocumentsByType | services/vectorStore.ts:94-98 | "ALL" lists everything; otherwise exactly the documents whose type or category matches, in order, as many as match |
| VectorStore.VectorStore.GetStats | services/vectorStore.ts:100-107 | the total, and the size of each of the three named folders, which together are at most the total |
| Retrieval.CosineSymmetric | services/vectorStore.ts:109-119 | similarity of equal-length vectors is symmetric |
| Retrieval.CosineSelf | services/vectorStore.ts:109-119 | a non-zero vector has similarity 1 with itself whenever the square root squares back |
| Retrieval.CosineShortStored | services/vectorStore.ts:113-118 | a stored vector shorter than the query scores NaN, or 0 against a zero query, and is never relevant |
| Retrieval.ScoreAll | services/vectorStore.ts:78-82 | each candidate is paired with its own score: -1 without an embedding, the cosine otherwise |
| Retrieval.SortByScoreCorrect | services/vectorStore.ts:85 | the sort is by descending score and is a permutation of its input |
| Retrieval.SortByScoreStable | services/vectorStore.ts:85 | the sort is stable: the pairs with any one score come out in their input order |
| Retrieval.Candidates | services/vectorStore.ts:68-75 | the candidates are exactly the stored documents in one of the allowed folders, or all documents when none are given |
| Retrieval.RankingSound | services/vectorStore.ts:68-90 | every ranked pair is a relevant in-scope stored document with its own score |
| Retrieval.RankingComplete | services/vectorStore.ts:68-90 | every relevant in-scope stored document is ranked |
| Retrieval.RankingFacts | services/vectorStore.ts:68-90 | the ranking is honest, sound and best first |
| Retrieval.SearchSound | services/vectorStore.ts:62-91 | no query embedding gives no results; at most `limit` results, relevant, in scope and best first |
| Retrieval.SearchComplete | services/vectorStore.ts:62-91 | a relevant in-scope document is missing only when `limit` better-or-equal results fill the list |
| Retrieval.SearchSkipsUnusableEmbeddings | services/vectorStore.ts:78-82 | a document without an embedding, or with one shorter than the query, is never returned |
| Agents.MemoryAccessShape | services/ai.ts:89-94 | only the supervisor has no folders; every specialist reads CORE_IDENTITY; only ARCHITECT reads TECH_DOCS; only GROWTH reads MARKETING_OPS |
| Agents.ClassifyPriority | services/ai.ts:128-132 | classification never yields the supervisor; GROWTH wins over ARCHITECT, and anything else is GUARDIAN, each as an if-and-only-if on the trimmed upper-cased reply |
| Agents.ClassifyRoleName | services/ai.ts:128-132 | any reply that, trimmed and upper-cased, is a specialist's name selects that specialist, whatever its case and padding |
| Agents.ClassifyEmpty | services/ai.ts:128-132 | an empty reply selects GUARDIAN |
| Agents.FailedSupervisorSelectsGuardian | services/ai.ts:128-132 | the diagnostic a failed call to the fast model returns (services/gemini.ts:45) is read as GUARDIAN |
| Agents.HistoryUsesLastSix | services/ai.ts:180-185 | the history block depends only on the last six messages and contains each of them; no history gives the fixed placeholder |
| Agents.FinalPromptCarriesInputs | services/ai.ts:189-206 | the specialist's prompt contains its persona, the query, the history block, the folders and the retrieved context |
| Agents.SelectAgent | services/ai.ts:106-146 | the operator's choice wins unless it is the supervisor; otherwise the classification decides; the supervisor's log entries and model call follow that choice |
| Agents.SearchLogs | services/ai.ts:152-170 | two entries by the agent: the memory access, then a citation or a memory miss depending on whether anything was found |
| Agents.RetrieveContext | services/ai.ts:149-170 | the agent's search is the store's search over its own folders with limit 5; every result is stored and in one of its folders |
| Agents.RunMultiAgentSystem | services/ai.ts:96-225 | the selected agent is never the supervisor; the one or two model calls made; the retrieved context; the answer; the audit log steps in order with their authors; the final progress notice |
| ChatStorage.ThreadId | services/chatStorage.ts:21 | the id is `thread-`, the time's decimal digits, a dash and the random suffix |
| ChatStorage.ThreadIdInjective | services/chatStorage.ts:21 | two ids are equal exactly when their times and their suffixes are |
| ChatStorage.Prepended | services/chatStorage.ts:29-35 | the new thread goes first, the older ones follow in order, and the list is cut to 50 |
| ChatStorage.FindIndex | services/chatStorage.ts:43 | the position of the first thread with the id, or none exactly when no thread has it |
| ChatStorage.TitleFrom | services/chatStorage.ts:52 | a content of up to 50 characters is the title; a longer one is cut to 50 and gets "..." |
| ChatStorage.ChatStorage.AllThreads | services/chatStorage.ts:8-17 | a missing or unparsable entry reads as no threads |
| ChatStorage.ChatStorage.GetThread | services/chatStorage.ts:58-61 | the first thread with the id, or nothing exactly when none has it |
| ChatStorage.ChatStorage.CreateThread | services/chatStorage.ts:19-39 | the new empty thread with the generated id, written at the front of the capped list |
| ChatStorage.ChatStorage.AddMessage | services/chatStorage.ts:41-56 | an unknown thread throws and nothing is written; otherwise only the first matching thread gets the message, the time stamp and possibly a title |
| ChatStorage.ChatStorage.DeleteThread | services/chatStorage.ts:63-67 | every thread with the id is dropped and the list written back |
| ChatStorage.ChatStorage.UpdateThreadAgent | services/chatStorage.ts:69-76 | only the first matching thread gets the mode; an unknown id leaves the entry untouched |
| ChatStorage.CreateThreadFacts | services/chatStorage.ts:19-39 | a new thread leads the list with no messages and the placeholder title; the list stays within the cap |
| ChatStorage.AddMessageFacts | services/chatStorage.ts:41-55 | only the matching thread changes: its messages grow by exactly the message and its update time is the new one |
| ChatStorage.AutoTitleRule | services/chatStorage.ts:51-53 | the title is set only from a user's first message in a thread with the placeholder title, and is at most 53 characters long |
| ChatStorage.TitleSetOnce | services/chatStorage.ts:51 | a second message never retitles a thread |
| ChatStorage.DeleteThreadFacts | services/chatStorage.ts:63-67 | after a delete no thread has the id, the others stay in order, and an absent id changes nothing |
| ChatStorage.UpdateAgentFacts | services/chatStorage.ts:69-76 | only the agent mode of the first matching thread changes |
| ChatStorage.OperationsKeepCap | services/chatStorage.ts:32-35 | creating caps the list at 50, and deleting or appending never makes it longer |
| App.TaskDocument | App.tsx:56-66 | the task's document has the task's id, type TASK, the MARKETING_OPS folder, and the task's status and title |
| App.AttachmentDocument | App.tsx:72-81 | an attachment's document has its id, type FILE, the GENERAL folder and the task as its origin |
| App.IndexedAttachments | App.tsx:69-84 | exactly the attachments that pass the textual-or-short test are indexed, and nothing else |
| App.App.constructor | App.tsx:16-32 | a saved list is restored; with nothing usable saved the seed tasks are used; no delete is pending |
| App.App.IndexTask | App.tsx:43-85 | the task document and then its attachment documents are upserted in order, and the store persisted |
| App.App.IndexAttachments | App.tsx:69-84 | the loop upserts each qualifying attachment, in order |
| App.App.HandleAddTask | App.tsx:87-90 | the task is appended and indexed, and the store persisted |
| App.App.HandleEditTask | App.tsx:92-95 | every task with the id is replaced and the new version indexed, and the store persisted |
| App.App.HandleDeleteTask | App.tsx:98-101 | only the pending delete is recorded |
| App.App.ConfirmDelete | App.tsx:104-111 | with a non-empty pending id the tasks and the document with that id go, the store is persisted and the pending id is cleared; otherwise nothing happens, the persisted copy included |
| App.App.CancelDelete | App.tsx:114-117 | the pending delete is cleared and the tasks are kept |
| App.App.HandleUpdateStatus | App.tsx:119-130 | each task with the id gets the status and is re-indexed in list order; the store is persisted when a task matched and untouched otherwise |
| App.App.RestatusAll | App.tsx:120-129 | the map loop builds the re-statused list and indexes each changed task; the store is persisted when a task matched and untouched otherwise |
| App.App.RestatusOne | App.tsx:120-128 | the callback changes and indexes a task with the id, persisting the store, and returns any other task untouched |
| App.App.HandleRestoreTask | App.tsx:132-134 | a restore is a status change to TODO, with the same effect on the store |
| App.TaskContentShape | App.tsx:44-59 | trimming the template removes only its indentation and the trailing text, so the content starts with the title line |
| App.TaskContentCarriesFields | App.tsx:44-54 | the indexed text contains the task's title, code, status, owner, category, demand type, briefing idea and copy |
| App.IndexInputsFacts | App.tsx:56-84 | indexing upserts the task's document first, then exactly its qualifying attachments |
| App.IndexedTaskStored | App.tsx:56-84 | with the upserts completed one after another, the task's document is stored after indexing unless an attachment reuses the task's id |
| App.EditFacts | App.tsx:93 | editing keeps the length, replaces exactly the tasks with the id, is idempotent, and changes nothing for an absent id |
| App.StatusUpdateFacts | App.tsx:120-129 | a status change keeps the length and touches only the status of the tasks with the id |
| App.ReindexNothing | App.tsx:119-130 | a status change for an absent id re-indexes nothing |
| App.ReindexSingle | App.tsx:119-130 | with exactly one task carrying the id, only that task is re-indexed, with its new status |
| App.ConfirmDeleteFacts | App.tsx:107-108 | the delete drops exactly the tasks and documents with the id, and keeps the others in order |
| TaskService.OrDefault | src/services/taskService.ts:8-15 | null and `""` both give the fallback; any other value is kept |
| TaskService.MapDbToTask | src/services/taskService.ts:5-38 | id, title and owner are copied; the status text survives the cast; the attachment list is always present |
| TaskService.CreatePayload | src/services/taskService.ts:65-78 | a short mock id is not sent and a real one is; the status is written as text, with the user id |
| TaskService.SubtaskPayloadFacts | src/services/taskService.ts:86-91 | one row per subtask, tagged with the task, holding the description and its position |
| TaskService.UpdateBriefingWrite | src/services/taskService.ts:159-177 | an existing row is updated; otherwise a row is inserted only when the briefing has a key |
| TaskService.DecodeDefaults | src/services/taskService.ts:5-38 | a row with every optional column missing decodes to the documented defaults |
| TaskService.CreateThenRead | src/services/taskService.ts:60-125 | writing a task and reading it back keeps every scalar field and the subtasks |
| TaskService.CreateThenReadBriefing | src/services/taskService.ts:95-109 | the nine briefing columns read back as written; the `attachment` field reads back empty |
| TaskService.BriefingColumnsRoundTrip | src/services/taskService.ts:19-29 | each briefing column decodes to the field it was written from |
| TaskService.CreateThenReadAttachments | src/services/taskService.ts:111-121 | each attachment reads back with its fields under the id the database gave it, without a preview |
| Kanban.PrevStatus | components/KanbanBoard.tsx:52-57 | the left arrow exists exactly for DONE, IN_PROGRESS and BLOCKED, and leads to TODO or IN_PROGRESS |
| Kanban.NextStatus | components/KanbanBoard.tsx:46-50 | the right arrow exists exactly for TODO and IN_PROGRESS, and going right then left is a round trip |
| Kanban.BlockToggle | components/KanbanBoard.tsx:228-232 | the block control always moves the card: to BLOCKED exactly when it is not blocked, and back to IN_PROGRESS otherwise |
| Kanban.BlockThenUnblock | components/KanbanBoard.tsx:228-232 | blocking and unblocking is a round trip exactly for IN_PROGRESS and BLOCKED cards |
| Kanban.ControlsStayOnBoard | components/KanbanBoard.tsx:224-236 | no card control sends a card to BACKLOG or ARCHIVED |
| Kanban.SaveTask | components/KanbanBoard.tsx:69-75 | an edit exactly when the modal was opened on a card, with the task untouched |
| Kanban.ActiveTasks | components/KanbanBoard.tsx:39 | exactly the tasks outside BACKLOG and ARCHIVED, in order, as many as there are |
| Kanban.ActiveOwners | components/KanbanBoard.tsx:40 | the owners of the active tasks, in list order |
| Kanban.Owners | components/KanbanBoard.tsx:40 | "All", then each active owner once, in first-appearance order |
| Kanban.FilteredTasks | components/KanbanBoard.tsx:42-44 | the active tasks of the chosen owner, in order and as many as there are, or all active tasks for "All" |
| Kanban.OwnerChoicesSelectCards | components/KanbanBoard.tsx:40-44 | every owner offered selects at least one card |
| Kanban.Column | components/KanbanBoard.tsx:131-141 | a column holds exactly the tasks of its status, in list order; its length, shown as the column's count, is the number of such tasks |
| Kanban.ColumnsPartition | components/KanbanBoard.tsx:130-131 | the four columns and the off-board tasks together account for every task exactly once |
| Kanban.BoardShowsFilteredTasks | components/KanbanBoard.tsx:130-131 | the columns show every filtered card exactly once |
| Dashboard.StatusCount | components/Dashboard.tsx:13-17 | the number of tasks with the status |
| Dashboard.StatusCountsPartition | components/Dashboard.tsx:13-20 | the six status counts plus the tasks with an unknown status add up to the list length |
| Dashboard.ComputeStats | components/Dashboard.tsx:13-20 | the card figures are the status counts; the active total is done, in progress, blocked and to do; the overall total adds the backlog; WIP is in progress plus to do; the totals and WIP bound each other, and the overall total, the archived tasks and the unknown statuses make up the list |
| Dashboard.Bump | components/Dashboard.tsx:32-34 | one owner's count goes up by one, keys keep insertion order, and the total grows by one |
| Dashboard.Tally | components/Dashboard.tsx:32-35 | each owner's count is its number of occurrences, the keys are the distinct owners in order, and the total is the list length |
| Dashboard.OwnerOccurrences | components/Dashboard.tsx:30-35 | counting an owner among the non-backlog owners counts that owner's non-backlog tasks |
| Dashboard.OwnerData | components/Dashboard.tsx:30-35 | one bar per owner of a non-backlog task, in first-appearance order, holding that owner's non-backlog task count |
| Dashboard.BlockedTasks | components/Dashboard.tsx:158-171 | exactly the blocked tasks, in order, as many as the blocked card shows |
| Filters.OptionList | components/TaskManager.tsx:21 | "All", then each value once, in first-appearance order |
| TaskForm.Open | components/TaskFormModal.tsx:31-62 | an edited task is loaded with its subtasks one per line; a new task opens the empty form |
| TaskForm.OrElse | components/TaskFormModal.tsx:76-86 | an empty value gives the fallback and any other value is kept |
| TaskForm.StatusOrTodo | components/TaskFormModal.tsx:82 | only the empty status becomes TODO |
| TaskForm.SubtaskLines | components/TaskFormModal.tsx:72 | exactly the non-blank lines, in order, none containing a newline |
| TaskForm.HandleSave | components/TaskFormModal.tsx:69-91 | nothing is saved exactly when the title or the owner is empty; otherwise the id, the defaults for empty fields, the status, the subtasks and the attachments of the saved task |
| TaskForm.SubtaskLinesRoundTrip | components/TaskFormModal.tsx:72 | non-blank single-line subtasks survive being joined and split |
| TaskForm.EditRoundTrip | components/TaskFormModal.tsx:31-91 | opening a task and saving it untouched gives the same task back |
| TaskForm.NewTaskDefaults | components/TaskFormModal.tsx:45-91 | a new task with only title and owner gets the documented defaults |
| TaskForm.UpdateBriefing | components/TaskFormModal.tsx:93-101 | one briefing field is set and every other field and form value is kept |
| TaskForm.RemoveAttachment | components/TaskFormModal.tsx:132-137 | the attachments with the id are dropped and the others kept in order |
| TaskForm.AddAttachment | components/TaskFormModal.tsx:122-125 | the attachment is appended and nothing else changes |
| TaskForm.AddThenRemove | components/TaskFormModal.tsx:110-137 | removing a freshly added attachment with a fresh id restores the form |
| Blueprint.BacklogItems | components/StrategicBlueprint.tsx:20 | exactly the backlog tasks, in order, as many as there are |
| Blueprint.GroupKey | components/StrategicBlueprint.tsx:24 | the category, or "Geral" when it is empty |
| Blueprint.AddToGroup | components/StrategicBlueprint.tsx:23-28 | the item joins its key's group, which is created at the end when missing |
| Blueprint.Grouped | components/StrategicBlueprint.tsx:23-28 | each key's group holds exactly the items with that key in order; the keys are distinct, in first-appearance order |
| Blueprint.GroupedItems | components/StrategicBlueprint.tsx:23-28 | one group per distinct key; each holds exactly the backlog items with its key; sizes add up to the backlog count |
| Blueprint.EveryItemGrouped | components/StrategicBlueprint.tsx:23-28 | every backlog item appears in some group |
| Blueprint.HandleSave | components/StrategicBlueprint.tsx:40-50 | a new item is forced into the backlog; an edit keeps its status |
| Blueprint.NewItemJoinsBacklog | components/StrategicBlueprint.tsx:40-50 | a saved new item becomes the last backlog item |
| Blueprint.ActivateTask | components/StrategicBlueprint.tsx:52-54 | activation asks for status TODO for that id |
| Blueprint.ActivationLeavesBacklog | components/StrategicBlueprint.tsx:52-54 | once applied, the item has left the backlog and is on the production board |
| Blueprint.GetCategoryIcon | components/StrategicBlueprint.tsx:56-62 | the icon follows the keyword rules in priority order, as an if-and-only-if for each of the four icons |
| Blueprint.IconIgnoresCase | components/StrategicBlueprint.tsx:56-62 | the icon does not depend on letter case |
| Archive.ArchivedTasks | components/ArchiveRepository.tsx:16 | exactly the archived tasks, in order, as many as there are |
| Archive.SearchArchive | components/ArchiveRepository.tsx:18-22 | exactly the archived tasks whose title, code or owner contains the term case-insensitively, in order and as many as match; an empty term keeps all |
| Archive.EmptyTermMatchesAll | components/ArchiveRepository.tsx:18-22 | the empty term matches every task |
| Archive.SearchIgnoresCase | components/ArchiveRepository.tsx:18-22 | the search does not depend on the term's case |
| Archive.LongerTermNarrows | components/ArchiveRepository.tsx:18-22 | extending the term never finds a task the shorter term missed |
| Archive.TypeLabel | components/ArchiveRepository.tsx:64 | "TASK" for the generic type, otherwise the first four characters of the type |
| Archive.TypeLabelsDistinct | components/ArchiveRepository.tsx:64 | the six demand types get six different labels |
| TaskManager.Categories | components/TaskManager.tsx:21 | "All", then each task category once, in first-appearance order |
| TaskManager.Weeks | components/TaskManager.tsx:22 | "All", then each task week once, in first-appearance order |
| TaskManager.FilteredTasks | components/TaskManager.tsx:24-28 | exactly the tasks both filters let through, in order and as many as pass; all of them with both filters on "All" |
| TaskManager.FiltersCompose | components/TaskManager.tsx:24-28 | the two filters compose in either order |
| TaskManager.CategoryChoicesSelectTasks | components/TaskManager.tsx:21-28 | every category offered selects at least one task |
| KnowledgeBase.FileCategory | components/KnowledgeBase.tsx:81-87 | the filename rule: identity words first, then technical extensions or words, then marketing words, else the current category |
| KnowledgeBase.KnowledgeInput | components/KnowledgeBase.tsx:38-47 | a typed-in document is KNOWLEDGE, of manual origin, in the selected folder |
| KnowledgeBase.FilteredDocs | components/KnowledgeBase.tsx:97-99 | "ALL" lists all documents; otherwise exactly those whose stored category is the folder, in order and as many as there are |
| KnowledgeBase.KnowledgeBase.constructor | components/KnowledgeBase.tsx:8-16 | the list is the store's documents; the form is empty with the GENERAL category |
| KnowledgeBase.KnowledgeBase.HandleFileSelect | components/KnowledgeBase.tsx:67-95 | no file changes nothing; the title becomes the file name; a readable file fills the text and lets the rule pick the category |
| KnowledgeBase.KnowledgeBase.HandleAdd | components/KnowledgeBase.tsx:31-49 | an empty title or text does nothing, to the store or its persisted copy; otherwise the document is upserted with its embedding, the store persisted and the status shows DONE |
| KnowledgeBase.KnowledgeBase.AfterIngest | components/KnowledgeBase.tsx:50-56 | the form is cleared and closed and the list reread |
| KnowledgeBase.KnowledgeBase.HandleDelete | components/KnowledgeBase.tsx:59-64 | a confirmed delete drops the id from the store, persists it and rereads the list; otherwise nothing changes, the persisted copy included |
| KnowledgeBase.KnowledgeBase.Visible | components/KnowledgeBase.tsx:97-99 | the listed documents are a subsequence of the documents read |
| KnowledgeBase.PickedFileIsStored | components/KnowledgeBase.tsx:67-95 | a picked and added file is stored last, under the clock's id, in the folder the filename rule chose |

## Left out

- Browser storage and JSON are modelled as values: an absent, unparsable or parsed entry. An unparsable vector-store entry would make `load` throw; the model has no such case.
- The remote calls are parameters.
  - The embedding service is a fixed function of the text.
  - A generation reply is an input.
  - The database returns the rows written, with the ids it assigns, given as parameters.
- Not modelled from the database service: `getAllTasks`, the main row update of `updateTask`, `deleteTask` (src/services/taskService.ts:183-187) and the realtime subscription. These are remote queries with no logic beyond the row mapping that is modelled.
- Clock values, random id parts, confirmation dialogs and file reads are parameters. `Date.now()` is taken once per chat-thread creation, although the source reads it three times.
- Async and timers:
  - `initializeMemory` is not awaited in the source; the model runs it to completion.
  - The 800 ms delay and the 500 ms reset of the knowledge-base view are not modelled; the reset is its own method, `AfterIngest`.
- Floating point: scores are reals. `Math.sqrt` is an abstract positive root. NaN is a separate score value that ranks below every number.
- VectorStore.VectorStore.Search: the JavaScript sort with a NaN-producing comparator is implementation-defined. The model uses a stable descending sort with NaN last. A NaN-scored document never passes the 0.35 floor, so in the model it is never returned.
- String semantics:
  - Case mapping covers ASCII and the Latin-1 letters whose other case is a single Latin-1 character. Letters like `ß`, `µ` and `ÿ` stay as they are, though `toUpperCase` turns them into `SS`, `Μ` and `Ÿ`.
  - Lengths and slices count Unicode scalar values, not UTF-16 code units.
- Agents.SearchLogs: states each entry's step, agent and time, but not the text of its details.
- Agents.SelectAgent, Agents.SearchLogs, Agents.RetrieveContext and Agents.RunMultiAgentSystem stamp every log entry with one time value `now`. The source reads `Date.now()` again for each entry (services/ai.ts:103-214), so its entries may carry increasing times.
- Agents.RunMultiAgentSystem: states the last progress notice, but not the texts of the other notices or of the log details.
- The persona texts are a parameter. The seed documents keep their ids, types, titles and folders, but their content is abbreviated.
- The briefing's `attachment` field has no database column, so it does not survive a round trip. An attachment's `previewUrl` is not stored.
- Blueprint.HandleSave: for a new item the source sets `task.status = BACKLOG` on the very object the form handed it (components/StrategicBlueprint.tsx:43). The model returns a fresh record with that status; the caller's object is not aliased.
- TaskForm.UpdateBriefing: the field name is one of the briefing keys, not an arbitrary string.
- Task deadlines are a `Date` (or null) in the source; the model keeps a deadline as its date text, `Option<string>`. Dates are not parsed, compared or formatted.
- App.App.IndexTask, App.App.IndexAttachments, App.App.RestatusAll, App.App.RestatusOne, App.IndexedTaskStored and App.App.HandleUpdateStatus run each upsert to completion before the next starts. The source does not await `upsertDocument` (App.tsx:56, App.tsx:72). Each call removes the old entry with its id at once, but adds the new one only after its embedding arrives (services/vectorStore.ts:41-47). So all removals happen before any addition, and the additions come in the order the embedding replies arrive. The model captures neither that order nor the outcome when an attachment shares the task's id: the source then keeps both documents, the model only the attachment.
- TaskService.CreateThenRead: the subtasks read back in the order they were written, because `CreatedRow` returns the child rows in insertion order. The source's select (src/services/taskService.ts:189-201) and `mapDbToTask` (src/services/taskService.ts:18) never order by `order_index`, which the writes fill in (src/services/taskService.ts:86-91, 148-153). The database may return the rows in another order.
- Blueprint.AddToGroup, Blueprint.GroupedItems, Dashboard.Bump and Dashboard.OwnerData accumulate into a record that has exactly the keys put into it. The source accumulates into a plain `{}`, which also answers to the names `Object.prototype` supplies.
  - A backlog category such as `constructor`, `toString` or `__proto__` finds a truthy value at `acc[cat]` (components/StrategicBlueprint.tsx:25). The source then calls `push` on it and throws, so the view fails; the model groups the item normally.
  - In the owner tally (components/Dashboard.tsx:33), the owner `constructor` gets a text instead of a number, and `__proto__` does not appear in `Object.entries`. The model counts both normally.
- Object key order: `Object.entries` on owner and category records is taken as insertion order. JavaScript puts integer-like keys first; the model does not.
- Left out by design:
  - rendering, charts, icons and colours (`getTypeIcon`, `getStatusColor`, `formatDate`);
  - console logging;
  - the Supabase client;
  - the alternative `src/App.tsx` and `src/components/IntelligenceHub.tsx`;
  - `components/Sidebar.tsx`.
