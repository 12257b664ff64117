# Singularity API core, modelled in Dafny

This project models the logic of the Singularity FastAPI/SQLAlchemy service
that shapes what a client sees. The rest of the repository is glue code.

- **Models.** A group's members list is one list object, changed in place by
  `add_member` and `remove_member`, and the model proves that those two keep
  "no duplicates". The list is shared with whoever passed it in or got it
  from `get_members`, and the model shows a duplicate getting in that way.
  Recommendation, Feedback, News and Training share a content summary: the
  content cut to 100 characters with `"..."` appended. Their `update_content`
  replaces one field.
- **Request schemas.** Each create schema requires both of its fields and
  checks a minimum length. Training and Feedback also run a `not_empty`
  validator over `str.strip`. The model states exactly which bodies each
  schema accepts and which error each rejected field gets. It also proves the
  gap between "non-empty" and "non-blank".
- **Services.** Each service sees its table as a sequence of rows in
  insertion order:
  - create appends one row;
  - `.filter(...).first()` finds the first row whose key matches;
  - delete removes that row, if there is one;
  - list returns every row.
  `apply_ethics` adds a parent row, then loops to add one child row per
  principle. Scaling and ethics rows get ids from the store. Those ids are
  kept unique as a class invariant. An ethics id is chosen as SQLite does,
  one above the largest present, so a deleted id can come back; deleting a
  parent sets its children's `ethics_id` to NULL, and the foreign key is a
  class invariant.
- **Routes.** Each handler is a function from what the awaited service call
  gave back to what the handler gives the framework. That is either a body
  with the route's status or a raised exception. The try/except shapes of the
  handler files are combinators in `Http`.
- **Error handling.** `ErrorHandler.Serve` models the application's exception
  handlers, turning a handler result into a response. Each handler is
  compared with the behaviour the API tests check, which is stated once in
  `ApiContract`: 201 on create, 200 with the row, 204 on delete, and
  404 "<Entity> not found" for a missing key.
- **Response check.** After the handler returns, FastAPI validates the value
  against the route's `response_model` (`Responses.Send`). Under pydantic v1
  a schema reads an ORM or plain object only when its `Config` sets
  `orm_mode`, and only `app/schemas/group.py` and `app/schemas/news.py` do.
  So every other create and get that returns a row ends in the application's
  500 "An internal server error occurred.", after the row was committed.
  The `...Sent` member of each route states what the client receives. The second error handler, in
  `async_fastapi_nlp_agent_system`, is modelled as `AsyncErrorHandler`.
- **Dependencies.** The two user dependencies of `app/core/dependencies.py`
  are modelled. JWT decoding and the user lookup are function parameters.
- **Advanced NLP.** The combined endpoint is modelled. Sentiment analysis,
  entity recognition and translation are function parameters, so the model
  only decides which of them run and how their results are copied.
  Translation runs only for a non-blank target language.
- **Scenarios.** `Scenarios` replays the API tests as method calls on one
  store, from the request body to the client's response after the
  response check.

The exception text `str(e)` is never computed. A detail built as
`f"prefix: {e}"` is modelled as the prefix together with the exception
itself (`WithCause`).

## Model

| member | source | states |
|---|---|---|
| Text.SkipLeading | app/schemas/training.py:12 | the first position at or after i holding a non-whitespace character (or the end), with only whitespace skipped |
| Text.SkipTrailing | app/schemas/training.py:12 | moving back from j, the end of the last non-whitespace character after lo (or lo), with only whitespace skipped |
| Text.Strip | app/schemas/training.py:12 | str.strip: the result is a contiguous piece of the input with only whitespace removed on either side, and it neither starts nor ends with whitespace |
| Text.StripEmptyIffBlank | app/schemas/training.py:12-13 | strip leaves the empty string exactly when every character is whitespace, which is the test `not v.strip()` makes |
| Text.NotBlankHasWitness | app/schemas/feedback.py:10-11 | a value passes the blank test exactly when it holds some non-whitespace character |
| Validation.CheckFieldSpec | app/schemas/training.py:5-14 | a present value is accepted exactly when it meets the minimum length and, where the validator applies, is not blank; it is passed on untrimmed; the error is, in order, missing, too short, then the validator's message |
| Validation.CheckPairSpec | app/schemas/feedback.py:4-12 | a two-field body is valid exactly when both fields are admitted, holds both values as given, and otherwise reports one error per failing field, first field first |
| Schemas.TrainingCreateContract | app/schemas/training.py:5-14 | TrainingCreate accepts a body exactly when title and content are present and both hold a non-whitespace character, and keeps them untrimmed |
| Schemas.TrainingCreateErrors | app/schemas/training.py:5-14 | an absent title is reported missing, an empty one too short, a non-empty blank one with "title must not be empty"; the same errors for content |
| Schemas.TrainingContract | app/schemas/training.py:16-25 | the response schema accepts exactly what TrainingCreate accepts, and rejects even an empty blank title with the validator's message |
| Schemas.FeedbackCreateContract | app/schemas/feedback.py:4-12 | FeedbackCreate accepts a body exactly when user and content are present and both hold a non-whitespace character, and keeps them untrimmed |
| Schemas.FeedbackCreateErrors | app/schemas/feedback.py:4-12 | an absent user is reported missing, an empty one too short, a non-empty blank one with "user must not be empty"; the same errors for content |
| Schemas.FeedbackContract | app/schemas/feedback.py:14-22 | the response schema accepts exactly what FeedbackCreate accepts, and rejects even an empty blank user with the validator's message |
| Schemas.NewsCreateContract | app/schemas/news.py:5-7 | NewsCreate accepts a body exactly when title and content are present and non-empty, whitespace-only values included; an absent field is missing, an empty one too short |
| Schemas.NewsContract | app/schemas/news.py:9-11 | the response schema accepts any two present strings, the empty one included |
| Schemas.RecommendationCreateContract | app/schemas/recommendation.py:5-7 | RecommendationCreate accepts a body exactly when title and content are present and non-empty, whitespace-only values included; an absent field is missing, an empty one too short |
| Schemas.RecommendationContract | app/schemas/recommendation.py:9-11 | the response schema accepts any two present strings, the empty one included |
| Schemas.InfluenceCreateContract | app/schemas/influence.py:5-7 | InfluenceCreate accepts a body exactly when name and effect are present and non-empty, whitespace-only values included; an absent field is missing, an empty one too short |
| Schemas.InfluenceContract | app/schemas/influence.py:9-11 | the response schema accepts any two present strings, the empty one included |
| Schemas.TaskCreateContract | app/schemas/task.py:4-6 | TaskCreate accepts a body exactly when name and action are present and non-empty, whitespace-only values included; an absent field is missing, an empty one too short |
| Schemas.TaskContract | app/schemas/task.py:8-10 | the response schema accepts any two present strings, the empty one included |
| Schemas.RoleCreateContract | app/schemas/role.py:5-7 | RoleCreate accepts a body exactly when name and description are present and non-empty, whitespace-only values included; an absent field is missing, an empty one too short |
| Schemas.RoleContract | app/schemas/role.py:9-11 | the response schema accepts any two present strings, the empty one included |
| Schemas.NonBlankStrongerThanNonEmpty | app/schemas/training.py:6-14 | every non-blank value is non-empty, and " " is non-empty but blank |
| Schemas.BlankValueGap | app/schemas/news.py:5-7 | a non-empty whitespace-only value passes the five min_length-only create schemas and is refused by TrainingCreate and FeedbackCreate |
| ContentSummary.Summarize | app/models/recommendation.py:33 | content of at most 100 characters is its own summary; longer content gives its first 100 characters followed by "..." |
| ContentSummary.SummaryLength | app/models/recommendation.py:33 | a summary has at most 103 characters, and exactly 103 exactly when the content was cut |
| ContentSummary.SummaryKeepsPrefix | app/models/feedback.py:31 | summary and content agree on their first min(length, 100) characters |
| ContentSummary.SummaryFixedPoints | app/models/news.py:28 | content is its own summary exactly when it is short, or is 103 long and already ends in "..." |
| ContentSummary.SummaryIdempotent | app/models/training.py:27 | summarising a summary changes nothing |
| RecommendationModel.Recommendation.constructor | app/models/recommendation.py:4-13 | the fields are stored exactly as given |
| RecommendationModel.Recommendation.UpdateContent | app/models/recommendation.py:15-22 | content becomes the argument; title stay as they were |
| RecommendationModel.Recommendation.GetSummary | app/models/recommendation.py:24-33 | reads the record without changing it and answers the summary of the content, at most 103 characters long |
| FeedbackModel.Feedback.constructor | app/models/feedback.py:4-13 | the fields are stored exactly as given |
| FeedbackModel.Feedback.UpdateContent | app/models/feedback.py:15-22 | content becomes the argument; user stay as they were |
| FeedbackModel.Feedback.GetSummary | app/models/feedback.py:24-31 | reads the record without changing it and answers the summary of the content, at most 103 characters long |
| NewsModel.News.constructor | app/models/news.py:7-10 | title and content are stored as given; the id is unset until the store assigns one |
| NewsModel.News.UpdateContent | app/models/news.py:12-19 | content becomes the argument; id and title stay as they were |
| NewsModel.News.GetSummary | app/models/news.py:21-28 | reads the record without changing it and answers the summary of the content, at most 103 characters long |
| TrainingModel.Training.constructor | app/models/training.py:6-9 | title and content are stored as given; the id is unset until the store assigns one |
| TrainingModel.Training.UpdateContent | app/models/training.py:11-18 | content becomes the argument; id and title stay as they were |
| TrainingModel.Training.GetSummary | app/models/training.py:20-27 | reads the record without changing it and answers the summary of the content, at most 103 characters long |
| GroupModel.FirstIndex | app/models/group.py:38 | the position of the first occurrence of a present member: it holds the member and no earlier position does |
| GroupModel.RemoveFirst | app/models/group.py:37-38 | an absent member leaves the list as it is; a present one has exactly its first occurrence cut out, the rest in order |
| GroupModel.WithMemberSpec | app/models/group.py:27-28 | after add_member the member is present, a present member leaves the list unchanged, a new one goes at the end, and earlier members keep their places |
| GroupModel.WithMemberIdempotent | app/models/group.py:27 | adding the same member twice is the same as adding it once |
| GroupModel.WithMemberKeepsNoDuplicates | app/models/group.py:27-28 | add_member keeps a duplicate-free list duplicate-free |
| GroupModel.RemoveFirstMultiset | app/models/group.py:37-38 | remove_member takes away exactly one occurrence of a present member and nothing else, as multisets |
| GroupModel.RemoveFirstKeepsNoDuplicates | app/models/group.py:37-38 | remove_member keeps a duplicate-free list duplicate-free |
| GroupModel.RemoveFirstRemovesAll | app/models/group.py:37-38 | in a duplicate-free list the removed member is gone afterwards |
| GroupModel.RemoveUndoesAdd | app/models/group.py:27-38 | removing a member just added to a list without it restores the list |
| GroupModel.MemberList.Append | app/models/group.py:28 | `list.append`: the element goes at the end of the one list object |
| GroupModel.MemberList.Remove | app/models/group.py:38 | `list.remove` of a present element: its first occurrence is cut out |
| GroupModel.Group.constructor | app/models/group.py:6-18 | no list gives a new empty list object; a supplied list is kept as that same object, not a copy, duplicates included |
| GroupModel.Group.AddMember | app/models/group.py:20-28 | the group's list object becomes the list with the member appended if absent; the name and the list object stay; no duplicates is preserved |
| GroupModel.Group.RemoveMember | app/models/group.py:30-38 | the group's list object loses the first occurrence of the member, if any; the name and the list object stay; on a duplicate-free list the member is then absent |
| GroupModel.Group.GetMembers | app/models/group.py:40-47 | answers the group's own list object, not a copy, and changes nothing |
| GroupModel.DuplicateThroughSharedList | app/models/group.py:15-18 | an append through the list given to the constructor, or through the one get_members returned, reaches the group and leaves a duplicate |
| Tables.IndexOfKey | app/services/influence_service.py:40-41 | the position of the first row with the key: it matches and no earlier row does; None exactly when no row matches |
| Tables.Lookup | app/services/influence_service.py:40-42 | `.filter(key == k).first()`: a row of the table with that key, None exactly when no row has it |
| Tables.DeleteFirst | app/services/influence_service.py:53-57 | with no matching row the table is unchanged; otherwise exactly the first matching row is cut out |
| Tables.LookupIsFirstMatching | app/services/influence_service.py:40-42 | the lookup answers the first of the rows with that key, in table order |
| Tables.MatchingAppend | app/services/influence_service.py:22-26 | the rows with a key in two appended tables are those of the first followed by those of the second |
| Tables.MatchingNone | app/services/influence_service.py:55 | a table where no row has the key has no matching rows |
| Tables.DeleteFirstMatching | app/services/influence_service.py:53-57 | a delete removes the head of the rows with that key and leaves the rows of every other key exactly as before |
| Tables.MatchingSplit | app/services/influence_service.py:53-57 | the rows with a key, split around one position of the table |
| Tables.MatchingSingle | app/services/influence_service.py:22-26 | a one-row table matches exactly when its row has the key |
| Tables.LookupAfterAppend | app/services/influence_service.py:22-26 | appending a row never changes an answer the table already gives; the new row is found only by a key no earlier row has |
| Tables.CreateThenLookup | tests/services/test_agent_service.py:33-43 | create under a key nobody has, then look it up: the created row comes back |
| Tables.LookupAfterDelete | tests/services/test_agent_service.py:45-54 | after a delete by a key with at most one row, a lookup finds nothing; with two or more it finds the second |
| Tables.LookupOtherKeyAfterDelete | app/services/influence_service.py:53-57 | a delete by one key leaves the lookup of every other key as it was |
| Tables.DeleteTwice | app/services/influence_service.py:53-55 | deleting a key that had at most one row a second time changes nothing |
| Tables.UniqueKeyMatchesAtMostOne | app/services/ethics_service.py:57-58 | under a primary key at most one row matches |
| Tables.DeleteFirstKeepsUnique | app/services/ethics_service.py:57-61 | a delete keeps a unique key unique and adds no row |
| Tables.Table.Add | app/services/influence_service.py:23-24 | the row is appended and nothing else changes |
| Tables.Table.First | app/services/influence_service.py:40-41 | the answer of the first-match lookup; nothing changes |
| Tables.Table.DeleteFirstMatch | app/services/influence_service.py:53-57 | the table becomes the first-match delete of the old table |
| Tables.Table.All | app/services/influence_service.py:70-72 | every row, in table order; nothing changes |
| AgentService.CreateAgent | app/services/agent_service.py:22-26 | appends exactly one row with the given name and model and returns it; a name no row had is then found as that row |
| AgentService.CreateAgentAsWritten | app/services/agent_service.py:22 | as written the constructor call raises a TypeError before `db.add`: every create fails with an unexpected exception and the table is unchanged |
| AgentService.GetAgent | app/services/agent_service.py:40-42 | the first row whose name matches, or None; the table is not changed |
| AgentService.DeleteAgent | app/services/agent_service.py:53-57 | the table becomes the first-match delete by name: unchanged when no row matches, otherwise only the first matching row is removed |
| AgentService.ListAgents | app/services/agent_service.py:70-72 | every row, in table order; the table is not changed |
| RoleService.CreateRole | app/services/role_service.py:22-26 | appends exactly one row with the given name and description and returns it; a name no row had is then found as that row |
| RoleService.GetRole | app/services/role_service.py:40-42 | the first row whose name matches, or None; the table is not changed |
| RoleService.DeleteRole | app/services/role_service.py:53-57 | the table becomes the first-match delete by name: unchanged when no row matches, otherwise only the first matching row is removed |
| RoleService.ListRoles | app/services/role_service.py:70-72 | every row, in table order; the table is not changed |
| TaskService.CreateTask | app/services/task_service.py:22-26 | appends exactly one row with the given name and action and returns it; a name no row had is then found as that row |
| TaskService.GetTask | app/services/task_service.py:40-42 | the first row whose name matches, or None; the table is not changed |
| TaskService.DeleteTask | app/services/task_service.py:53-57 | the table becomes the first-match delete by name: unchanged when no row matches, otherwise only the first matching row is removed |
| TaskService.ListTasks | app/services/task_service.py:70-72 | every row, in table order; the table is not changed |
| InfluenceService.CreateInfluence | app/services/influence_service.py:22-26 | appends exactly one row with the given name and effect and returns it; a name no row had is then found as that row |
| InfluenceService.GetInfluence | app/services/influence_service.py:40-42 | the first row whose name matches, or None; the table is not changed |
| InfluenceService.DeleteInfluence | app/services/influence_service.py:53-57 | the table becomes the first-match delete by name: unchanged when no row matches, otherwise only the first matching row is removed |
| InfluenceService.GetAllInfluences | app/services/influence_service.py:70-72 | every row, in table order; the table is not changed |
| GroupService.CreateGroup | app/services/group_service.py:22-26 | appends exactly one row with the given name and members, the list in its given order and returns it; a name no row had is then found as that row |
| GroupService.GetGroup | app/services/group_service.py:40-42 | the first row whose name matches, or None; the table is not changed |
| GroupService.DeleteGroup | app/services/group_service.py:53-57 | the table becomes the first-match delete by name: unchanged when no row matches, otherwise only the first matching row is removed |
| GroupService.ListGroups | app/services/group_service.py:70-72 | every row, in table order; the table is not changed |
| NewsService.CreateNews | app/services/news_service.py:22-26 | appends exactly one row with the given title and content and returns it; a title no row had is then found as that row |
| NewsService.GetNews | app/services/news_service.py:40-42 | the first row whose title matches, or None; the table is not changed |
| NewsService.DeleteNews | app/services/news_service.py:53-57 | the table becomes the first-match delete by title: unchanged when no row matches, otherwise only the first matching row is removed |
| NewsService.ListNews | app/services/news_service.py:70-72 | every row, in table order; the table is not changed |
| RecommendationService.CreateRecommendation | app/services/recommendation_service.py:22-26 | appends exactly one row with the given title and content and returns it; a title no row had is then found as that row |
| RecommendationService.GetRecommendation | app/services/recommendation_service.py:40-42 | the first row whose title matches, or None; the table is not changed |
| RecommendationService.DeleteRecommendation | app/services/recommendation_service.py:53-57 | the table becomes the first-match delete by title: unchanged when no row matches, otherwise only the first matching row is removed |
| RecommendationService.ListRecommendations | app/services/recommendation_service.py:70-72 | every row, in table order; the table is not changed |
| TrainingService.CreateTraining | app/services/training_service.py:22-26 | appends exactly one row with the given title and content and returns it; a title no row had is then found as that row |
| TrainingService.GetTraining | app/services/training_service.py:40-42 | the first row whose title matches, or None; the table is not changed |
| TrainingService.DeleteTraining | app/services/training_service.py:53-57 | the table becomes the first-match delete by title: unchanged when no row matches, otherwise only the first matching row is removed |
| TrainingService.ListTrainings | app/services/training_service.py:70-72 | every row, in table order; the table is not changed |
| FeedbackService.CreateFeedback | app/services/feedback_service.py:22-26 | appends exactly one row with the given user and content and returns it; a user no row had is then found as that row |
| FeedbackService.GetFeedback | app/services/feedback_service.py:40-42 | the first row whose user matches, or None; the table is not changed |
| FeedbackService.DeleteFeedback | app/services/feedback_service.py:53-57 | the table becomes the first-match delete by user: unchanged when no row matches, otherwise only the first matching row is removed |
| FeedbackService.ListFeedbacks | app/services/feedback_service.py:70-72 | every row, in table order; the table is not changed |
| ScalingService.ScalingTable.constructor | app/models/scaling.py:7 | an empty table that satisfies the id invariant |
| ScalingService.ApplyScaling | app/services/scaling_service.py:21-25 | appends one row with the given strategy and an id no earlier row has, and keeps ids unique |
| ScalingService.GetScaling | app/services/scaling_service.py:39-41 | the first row whose strategy (not id) matches, or None |
| ScalingService.DeleteScaling | app/services/scaling_service.py:52-56 | the first-match delete by strategy; ids stay unique |
| ScalingService.ListScalings | app/services/scaling_service.py:69-71 | every row, in table order |
| EthicsService.ChildRows | app/services/ethics_service.py:26-28 | one child per principle, in order, each pointing at the given parent id |
| EthicsService.PrincipleTexts | app/services/ethics_service.py:27 | the principle text of each child, in order |
| EthicsService.ChildRowsRoundTrip | app/services/ethics_service.py:26-28 | reading the texts of the children back gives the principles list exactly |
| EthicsService.ChildRowsAllMatch | app/services/ethics_service.py:26-28 | every child made for a parent is found by that parent's id |
| EthicsService.MaxId | app/models/ethics.py:8 | the largest id of a non-empty table: no id exceeds it and one row has it |
| EthicsService.NextId | app/models/ethics.py:8 | SQLite's next INTEGER PRIMARY KEY without AUTOINCREMENT: above every present id, one above the largest, 1 in an empty table |
| EthicsService.Orphaned | app/models/ethics.py:9 | the children of a deleted parent get a NULL ethics_id, every other row stays as it was, in order |
| EthicsService.OrphanedMatching | app/models/ethics.py:9 | after orphaning no child points at the deleted id, and every other parent keeps exactly its children in order |
| EthicsService.OrphanedKeepsParents | app/services/ethics_service.py:57-61 | deleting a parent and orphaning its children keeps the foreign key |
| EthicsService.FreshIdKeepsUnique | app/services/ethics_service.py:21-24 | a parent given the next id keeps parent ids unique |
| EthicsService.ChildrenOfFreshParent | app/services/ethics_service.py:21-30 | a parent given the next id has no children yet, because every stored ethics_id names a stored parent; after its children are added the foreign key holds and they are the only rows pointing at it |
| EthicsService.EthicsStore.constructor | app/models/ethics.py:7-24 | two empty tables that satisfy the key and foreign-key invariant |
| EthicsService.ApplyEthics | app/services/ethics_service.py:21-31 | one parent with the next id is added, then one child per principle in order; the invariant is kept, and the children of the new parent are exactly the principles even when its id was used before, none for an empty list |
| EthicsService.GetAllEthics | app/services/ethics_service.py:44-46 | every parent row, in table order |
| EthicsService.DeleteEthics | app/services/ethics_service.py:57-61 | removes the parent with that id if any and NULLs its children's ethics_id; no row with that id is left and no child points at it; every other id is answered as before and keeps its children |
| Http.RaiseIfMissing | app/api/v1/endpoints/influences.py:42-43 | an absent row becomes the 404 exception, a present row passes on, an exception propagates |
| Http.Unguarded | app/api/v1/endpoints/agents.py:18 | with no try, the value goes out with the route's status and an exception propagates unchanged |
| Http.ExceptAny | app/api/v1/endpoints/influences.py:18-22 | `except Exception`: a value goes out with the route's status; every exception, an HTTPException included, becomes an HTTPException with the given status and a detail naming it |
| Http.ExceptNoResultThenAny | app/api/v1/endpoints/tasks.py:57-62 | NoResultFound becomes 404 with the not-found text; every other exception gets the given status and a detail naming it |
| Http.ExceptNoResult | app/api/v1/endpoints/roles.py:29-33 | NoResultFound becomes 404 with the not-found text; every other exception propagates |
| Http.Then | app/api/v1/endpoints/influences.py:53-54 | once the awaited call completes the handler's own value goes out; an exception propagates |
| Http.RaiseIfMissingAfter | app/api/v1/endpoints/agents.py:25-28 | the not-found check placed after the try: an absent row becomes the 404 exception, a present one goes out with the status |
| ErrorHandler.Handle | app/middleware/error_handler.py:21-91 | an HTTPException keeps its status and detail, a validation error is 422 with the error list, a database error 500 "A database error occurred.", anything else 500 "An internal server error occurred."; every handler logs the exception it received |
| ErrorHandler.Serve | app/middleware/error_handler.py:33-37 | the response for a result that passed the response check: a returned value goes out with its status; a raised exception as its handler's response, with no headers |
| ErrorHandler.ServerErrorsHideText | app/middleware/error_handler.py:69-91 | two database (or two unexpected) exceptions get the same 500 response, their text going only to the log |
| ErrorHandler.ServerErrorStatus | app/middleware/error_handler.py:33-91 | status 500 comes exactly from a database, an unexpected, or a 500 HTTP exception; 422 exactly from a validation error or a 422 HTTP exception |
| ErrorHandler.DatabaseFailureDistinguishable | app/middleware/error_handler.py:69-91 | the client can tell a database failure from any other failure by its detail |
| ErrorHandler.UncaughtNoResultIs500 | app/middleware/error_handler.py:57-73 | a NoResultFound nobody catches is a database error: 500 with the database detail |
| ErrorHandler.HeadersNotForwarded | app/middleware/error_handler.py:33-37 | an HTTPException's headers are not part of the response |
| Responses.Send | app/schemas/news.py:13-14 | a raised exception skips the check; a returned body goes out as the handler's response exactly when the schema reads it, and otherwise as the application's 500 "An internal server error occurred." |
| Responses.RefusedLooksLikeCrash | app/middleware/error_handler.py:69-91 | a body the schema refuses gets the same response as any unexpected exception, so the client cannot tell that the row was stored |
| Responses.SendNoContent | app/api/v1/endpoints/roles.py:35-44 | a 204 goes out without a body, whatever the handler returned with it; any other result is sent unchanged |
| AsyncErrorHandler.Handle | async_fastapi_nlp_agent_system/app/middleware/error_handler.py:10-50 | HTTP and validation errors keep status and detail and are not logged; database and other errors are 500 "An internal server error occurred"; a log line records the exception it is about |
| AsyncErrorHandler.FailuresIndistinguishable | async_fastapi_nlp_agent_system/app/middleware/error_handler.py:35-50 | a database and an unexpected failure get the same 500 response and differ only in the log |
| AsyncErrorHandler.OnlyFailuresLogged | async_fastapi_nlp_agent_system/app/middleware/error_handler.py:15-50 | exactly the 500 handlers log, and they log the exception itself |
| Groups.CreateGroup | app/api/v1/endpoints/groups.py:13-22 | 201 with exactly the created row; a failing create is 400 with the detail "Error creating group: " and the cause |
| Groups.GetGroup | app/api/v1/endpoints/groups.py:24-35 | a present key is 200 with the row; an absent key is 400 with a detail wrapping the 404 "Group not found"; a failing query is 400 "Error retrieving group: " |
| Groups.GetGroupAbsentIs400 | app/api/v1/endpoints/groups.py:29-35 | an absent key is answered 400, not the 404 the API tests expect |
| Groups.GetGroupCorrected | tests/api/test_groups.py:30-33 | with the not-found check after the try: 200 with a present row, 404 "Group not found" for an absent one, failures as before |
| Groups.GetGroupCorrectedAgrees | app/api/v1/endpoints/groups.py:29-35 | the written and the corrected route give the same response exactly when the key is not absent |
| Groups.DeleteGroup | app/api/v1/endpoints/groups.py:37-45 | 204 once the delete completes, whether or not a row was removed; a failing delete is 400 "Error deleting group: " |
| Groups.CreateGroupSent | app/api/v1/endpoints/groups.py:13-22 | the Group schema sets orm_mode, so a created row goes out with 201; a failing create is 400 "Error creating group: " and the cause |
| Groups.GetGroupSent | app/api/v1/endpoints/groups.py:24-35 | a present row goes out with 200; an absent key and a failure are answered as the handler answers them |
| NewsRoutes.CreateNews | app/api/v1/endpoints/news.py:13-22 | 201 with exactly the created row; a failing create is 400 with the detail "Error creating news: " and the cause |
| NewsRoutes.GetNews | app/api/v1/endpoints/news.py:24-35 | a present key is 200 with the row; an absent key is 400 with a detail wrapping the 404 "News not found"; a failing query is 400 "Error retrieving news: " |
| NewsRoutes.GetNewsAbsentIs400 | app/api/v1/endpoints/news.py:29-35 | an absent key is answered 400, not the 404 the API tests expect |
| NewsRoutes.GetNewsCorrected | tests/api/test_news.py:30-33 | with the not-found check after the try: 200 with a present row, 404 "News not found" for an absent one, failures as before |
| NewsRoutes.GetNewsCorrectedAgrees | app/api/v1/endpoints/news.py:29-35 | the written and the corrected route give the same response exactly when the key is not absent |
| NewsRoutes.DeleteNews | app/api/v1/endpoints/news.py:37-45 | 204 once the delete completes, whether or not a row was removed; a failing delete is 400 "Error deleting news: " |
| NewsRoutes.CreateNewsSent | app/api/v1/endpoints/news.py:13-22 | the News schema sets orm_mode, so a created row goes out with 201; a failing create is 400 "Error creating news: " and the cause |
| NewsRoutes.GetNewsSent | app/api/v1/endpoints/news.py:24-35 | a present row goes out with 200; an absent key and a failure are answered as the handler answers them |
| Recommendations.CreateRecommendation | app/api/v1/endpoints/recommendations.py:13-22 | the handler's result, before the response check: 201 with exactly the created row; a failing create is 400 with the detail "Error creating recommendation: " and the cause | |
| Recommendations.GetRecommendation | app/api/v1/endpoints/recommendations.py:24-35 | the handler's result, before the response check: a present key is 200 with the row; an absent key is 400 with a detail wrapping the 404 "Recommendation not found"; a failing query is 400 "Error retrieving recommendation: " | |
| Recommendations.GetRecommendationAbsentIs400 | app/api/v1/endpoints/recommendations.py:29-35 | an absent key is answered 400, not the 404 the API tests expect |
| Recommendations.GetRecommendationCorrected | tests/api/test_recommendations.py:30-33 | the handler's result, before the response check: with the not-found check after the try: 200 with a present row, 404 "Recommendation not found" for an absent one, failures as before | |
| Recommendations.GetRecommendationCorrectedAgrees | app/api/v1/endpoints/recommendations.py:29-35 | the written and the corrected route give the same response exactly when the key is not absent |
| Recommendations.DeleteRecommendation | app/api/v1/endpoints/recommendations.py:37-45 | 204 once the delete completes, whether or not a row was removed; a failing delete is 400 "Error deleting recommendation: " |
| Recommendations.CreateRecommendationSent | app/api/v1/endpoints/recommendations.py:13-22 | what the client receives: the Recommendation schema sets no orm_mode, so a created row is the application's 500; a failing create is answered as the handler answers it |
| Recommendations.GetRecommendationSent | app/api/v1/endpoints/recommendations.py:24-35 | what the client receives: a present row is the application's 500; an absent key and a failure are answered as the handler answers them |
| TrainingRoutes.CreateTraining | app/api/v1/endpoints/training.py:13-22 | the handler's result, before the response check: 201 with exactly the created row; a failing create is 400 with the detail "Error creating training: " and the cause | |
| TrainingRoutes.GetTraining | app/api/v1/endpoints/training.py:24-35 | the handler's result, before the response check: a present key is 200 with the row; an absent key is 400 with a detail wrapping the 404 "Training not found"; a failing query is 400 "Error retrieving training: " | |
| TrainingRoutes.GetTrainingAbsentIs400 | app/api/v1/endpoints/training.py:29-35 | an absent key is answered 400, not the 404 the API tests expect |
| TrainingRoutes.GetTrainingCorrected | tests/api/test_training.py:30-33 | the handler's result, before the response check: with the not-found check after the try: 200 with a present row, 404 "Training not found" for an absent one, failures as before | |
| TrainingRoutes.GetTrainingCorrectedAgrees | app/api/v1/endpoints/training.py:29-35 | the written and the corrected route give the same response exactly when the key is not absent |
| TrainingRoutes.DeleteTraining | app/api/v1/endpoints/training.py:37-45 | 204 once the delete completes, whether or not a row was removed; a failing delete is 400 "Error deleting training: " |
| TrainingRoutes.CreateTrainingSent | app/api/v1/endpoints/training.py:13-22 | what the client receives: the Training schema sets no orm_mode, so a created row is the application's 500; a failing create is 400 "Error creating training: " and the cause |
| TrainingRoutes.CreateTrainingWithOrmMode | app/schemas/training.py:16-25 | with orm_mode set on the Training schema, a created row goes out with 201 and a failure as before |
| TrainingRoutes.GetTrainingSent | app/api/v1/endpoints/training.py:24-35 | what the client receives: a present row is the application's 500; an absent key and a failure are answered as the handler answers them |
| FeedbackRoutes.CreateFeedback | app/api/v1/endpoints/feedback.py:13-22 | the handler's result, before the response check: 201 with exactly the created row; a failing create is 400 with the detail "Error creating feedback: " and the cause | |
| FeedbackRoutes.GetFeedback | app/api/v1/endpoints/feedback.py:24-35 | the handler's result, before the response check: a present key is 200 with the row; an absent key is 400 with a detail wrapping the 404 "Feedback not found"; a failing query is 400 "Error retrieving feedback: " | |
| FeedbackRoutes.GetFeedbackAbsentIs400 | app/api/v1/endpoints/feedback.py:29-35 | an absent key is answered 400, not the 404 the API tests expect |
| FeedbackRoutes.GetFeedbackCorrected | tests/api/test_feedback.py:30-33 | the handler's result, before the response check: with the not-found check after the try: 200 with a present row, 404 "Feedback not found" for an absent one, failures as before | |
| FeedbackRoutes.GetFeedbackCorrectedAgrees | app/api/v1/endpoints/feedback.py:29-35 | the written and the corrected route give the same response exactly when the key is not absent |
| FeedbackRoutes.DeleteFeedback | app/api/v1/endpoints/feedback.py:37-45 | 204 once the delete completes, whether or not a row was removed; a failing delete is 400 "Error deleting feedback: " |
| FeedbackRoutes.CreateFeedbackSent | app/api/v1/endpoints/feedback.py:13-22 | what the client receives: the Feedback schema sets no orm_mode, so a created row is the application's 500; a failing create is 400 "Error creating feedback: " and the cause |
| FeedbackRoutes.GetFeedbackSent | app/api/v1/endpoints/feedback.py:24-35 | what the client receives: the route declares List[Feedback] and returns one row, so a present row is the application's 500; an absent key and a failure are answered as the handler answers them |
| Influences.CreateInfluence | app/api/v1/endpoints/influences.py:13-22 | the handler's result, before the response check: 201 with exactly the created row; a failing create is 400 with the detail "Error creating influence: " and the cause | |
| Influences.GetAllInfluences | app/api/v1/endpoints/influences.py:24-33 | the handler's result, before the response check: 200 with every row; a failing query is 400 "Error retrieving influences: " and the cause | |
| Influences.GetInfluence | app/api/v1/endpoints/influences.py:35-46 | the handler's result, before the response check: a present key is 200 with the row; an absent key is 400 with a detail wrapping the 404 "Influence not found"; a failing query is 400 "Error retrieving influence: " | |
| Influences.GetInfluenceAbsentIs400 | app/api/v1/endpoints/influences.py:40-46 | an absent key is answered 400, not the 404 the API tests expect |
| Influences.GetInfluenceCorrected | tests/api/test_influences.py:30-33 | the handler's result, before the response check: with the not-found check after the try: 200 with a present row, 404 "Influence not found" for an absent one, failures as before | |
| Influences.GetInfluenceCorrectedAgrees | app/api/v1/endpoints/influences.py:40-46 | the written and the corrected route give the same response exactly when the key is not absent |
| Influences.DeleteInfluence | app/api/v1/endpoints/influences.py:48-56 | 204 once the delete completes, whether or not a row was removed; a failing delete is 400 "Error deleting influence: " |
| Influences.CreateInfluenceSent | app/api/v1/endpoints/influences.py:13-22 | what the client receives: the Influence schema sets no orm_mode, so a created row is the application's 500; a failing create is 400 "Error creating influence: " and the cause |
| Influences.GetAllInfluencesSent | app/api/v1/endpoints/influences.py:24-33 | what the client receives: 200 with the rows exactly when there are none; any row makes it the application's 500; a failure is 400 "Error retrieving influences: " |
| Influences.GetInfluenceSent | app/api/v1/endpoints/influences.py:35-46 | what the client receives: a present row is the application's 500; an absent key and a failure are answered as the handler answers them |
| Stages.CreateStage | app/api/v1/endpoints/stages.py:13-22 | the handler's result, before the response check: 201 with exactly the created row; a failing create is 400 with the detail "Error creating stage: " and the cause | |
| Stages.GetAllStages | app/api/v1/endpoints/stages.py:24-33 | the handler's result, before the response check: 200 with every row; a failing query is 400 "Error retrieving stages: " and the cause | |
| Stages.GetStage | app/api/v1/endpoints/stages.py:35-46 | the handler's result, before the response check: a present key is 200 with the row; an absent key is 400 with a detail wrapping the 404 "Stage not found"; a failing query is 400 "Error retrieving stage: " | |
| Stages.GetStageAbsentIs400 | app/api/v1/endpoints/stages.py:40-46 | an absent key is answered 400, not the 404 the API tests expect |
| Stages.GetStageCorrected | tests/api/test_stages.py:30-33 | the handler's result, before the response check: with the not-found check after the try: 200 with a present row, 404 "Stage not found" for an absent one, failures as before | |
| Stages.GetStageCorrectedAgrees | app/api/v1/endpoints/stages.py:40-46 | the written and the corrected route give the same response exactly when the key is not absent |
| Stages.DeleteStage | app/api/v1/endpoints/stages.py:48-56 | 204 once the delete completes, whether or not a row was removed; a failing delete is 400 "Error deleting stage: " |
| Agents.CreateAgent | app/api/v1/endpoints/agents.py:13-18 | the handler's result, before the response check: 201 with exactly the created agent; an exception propagates unchanged to the app handlers | |
| Agents.GetAgent | app/api/v1/endpoints/agents.py:20-28 | the handler's result, before the response check: 200 with a present agent, 404 "Agent not found" for an absent one; an exception propagates | |
| Agents.DeleteAgent | app/api/v1/endpoints/agents.py:30-35 | 204 with no body whether or not the agent existed; an exception propagates |
| Agents.StoreFailureReachesAppHandler | app/api/v1/endpoints/agents.py:25 | a database failure during get reaches the app handler: 500 with the database detail |
| Agents.CreateFailureIs500 | app/api/v1/endpoints/agents.py:18 | with no try, a create whose service call raises an unexpected exception is the app's 500 "An internal server error occurred." |
| Agents.CreateAgentSent | app/api/v1/endpoints/agents.py:13-18 | what the client receives: the Agent schema sets no orm_mode, so even a created agent is the application's 500; an exception is answered by the app handlers |
| Agents.GetAgentSent | app/api/v1/endpoints/agents.py:20-28 | what the client receives: a present agent is the application's 500, an absent one 404 "Agent not found"; an exception is answered by the app handlers |
| Roles.CreateRole | app/api/v1/endpoints/roles.py:13-22 | the handler's result, before the response check: 201 with the created role; any exception is 400 "Role could not be created. Error: " and the cause | |
| Roles.GetRole | app/api/v1/endpoints/roles.py:24-33 | the handler's result, before the response check: 200 with whatever the service returned, None included; only NoResultFound becomes 404 "Role not found" | |
| Roles.GetRoleAbsentIsNot404 | app/api/v1/endpoints/roles.py:30-31 | an absent role is answered 200 with no role, not the 404 the API test expects |
| Roles.GetRoleCorrected | tests/api/test_roles.py:30-33 | the handler's result, before the response check: with a None check: 200 with a present role, 404 "Role not found" for an absent one | |
| Roles.GetRoleCorrectedAgrees | app/api/v1/endpoints/roles.py:30-31 | on a present role the written and the corrected route answer the same role |
| Roles.DeleteRole | app/api/v1/endpoints/roles.py:35-44 | the handler's result, before the response check: an absent role is 404 "Role not found" and no delete is made; a present one is deleted and answered 204 with "Role deleted successfully." | |
| Roles.DeleteRoleFromTable | app/api/v1/endpoints/roles.py:40-44 | on a table: an absent role leaves the table as it was and is 404; a present one is removed by the first-match delete and answered 204 |
| Roles.CreateRoleSent | app/api/v1/endpoints/roles.py:13-22 | what the client receives: the Role schema sets no orm_mode, so a created role is the application's 500; a failing create is 400 "Role could not be created. Error: " and the cause |
| Roles.GetRoleSent | app/api/v1/endpoints/roles.py:24-33 | what the client receives: a present role is the application's 500; the None of an absent role passes the optional response field and goes out as 200 with no role |
| Roles.DeleteRoleSent | app/api/v1/endpoints/roles.py:35-44 | what the client receives: a completed delete is 204 with no body, the success message dropped; an absent role is 404 "Role not found" |
| Tasks.CreateTask | app/api/v1/endpoints/tasks.py:13-22 | the handler's result, before the response check: 201 with the created task; any exception is 500 "Failed to create task: " and the cause | |
| Tasks.GetTask | app/api/v1/endpoints/tasks.py:24-37 | the handler's result, before the response check: a present task is 200; an absent one is 500 with a detail wrapping the 404; NoResultFound is 404; anything else 500 "Unexpected error: " | |
| Tasks.GetTaskAbsentIs500 | app/api/v1/endpoints/tasks.py:31-37 | an absent task is answered 500, not the 404 the API test expects |
| Tasks.GetTaskCorrected | tests/api/test_tasks.py:30-33 | the handler's result, before the response check: with the not-found check after the try: 200 with a present task, 404 "Task not found" for an absent one | |
| Tasks.GetTaskCorrectedAgrees | app/api/v1/endpoints/tasks.py:31-37 | the written and the corrected route give the same response exactly when the task is not absent |
| Tasks.UpdateTask | app/api/v1/endpoints/tasks.py:39-50 | the call to the undefined TaskService.update_task raises AttributeError, so every update is 500 "Failed to update task: " |
| Tasks.UpdateNeverSucceeds | app/api/v1/endpoints/tasks.py:45-50 | no name and no valid update body gives anything but a 500 failure; an invalid body is answered 422 before the handler runs |
| Tasks.UpdateTaskCorrected | app/api/v1/endpoints/tasks.py:44-50 | the handler's result, before the response check: with an update operation that answers the updated row or None: 200 with the row, 404 "Task not found" when absent or on NoResultFound, 500 otherwise | |
| Tasks.DeleteTask | app/api/v1/endpoints/tasks.py:52-62 | 204 once the delete completes; NoResultFound is 404 "Task not found"; anything else 500 "Failed to delete task: " |
| Tasks.CreateTaskSent | app/api/v1/endpoints/tasks.py:13-22 | what the client receives: the Task schema sets no orm_mode, so a created task is the application's 500; a failing create is 500 "Failed to create task: " and the cause |
| Tasks.GetTaskSent | app/api/v1/endpoints/tasks.py:24-37 | what the client receives: a present task is the application's 500; an absent one is 500 with a detail wrapping the 404; a failure as the handler answers it |
| EthicsRoutes.ApplyEthics | app/api/v1/endpoints/ethics.py:13-29 | the handler's result, before the response check: 201 with the created ethics row; any exception is 400 "Error applying ethics principles: " | |
| EthicsRoutes.GetAllEthics | app/api/v1/endpoints/ethics.py:31-46 | the handler's result, before the response check: 200 with every ethics row; any exception is 400 "Error retrieving ethics principles: " | |
| EthicsRoutes.DeleteEthics | app/api/v1/endpoints/ethics.py:48-60 | 204 whether or not a row was removed; any exception is 400 "Error deleting ethics principles: " |
| EthicsRoutes.ApplyEthicsSent | app/api/v1/endpoints/ethics.py:13-29 | what the client receives: the Ethics schema sets no orm_mode and declares its principles as strings, so a stored row is the application's 500; a failure is 400 "Error applying ethics principles: " |
| EthicsRoutes.ApplyEthicsWithOrmMode | app/schemas/ethics.py:8-10 | with a response schema that reads the row, the new row goes out with 201 and a failure as before |
| EthicsRoutes.GetAllEthicsSent | app/api/v1/endpoints/ethics.py:31-46 | what the client receives: 200 with the rows exactly when there are none; any row makes it the application's 500; a failure is 400 "Error retrieving ethics principles: " |
| ScalingRoutes.ApplyScaling | app/api/v1/endpoints/scaling.py:13-29 | the handler's result, before the response check: 201 with the created scaling row; any exception is 400 "Error applying scaling strategy: " | |
| ScalingRoutes.ApplyScalingSent | app/api/v1/endpoints/scaling.py:13-29 | what the client receives: the Scaling schema sets no orm_mode, so a stored row is the application's 500; a failure is 400 "Error applying scaling strategy: " |
| ScalingRoutes.ApplyScalingWithOrmMode | app/schemas/scaling.py:7-9 | with orm_mode set on the Scaling schema, the new row goes out with 201 and a failure as before |
| Dependencies.GetCurrentUser | app/core/dependencies.py:27-44 | the stored user is returned exactly when the token decodes, carries a subject and that user exists; every other case is the 401 with WWW-Authenticate: Bearer |
| Dependencies.GetCurrentActiveUser | app/core/dependencies.py:46-49 | an inactive user is 400 "Inactive user"; an active one is returned unchanged; an earlier failure passes on |
| Dependencies.ActiveUserAdmitted | app/core/dependencies.py:27-49 | the two checks together admit exactly an authenticated, active user |
| AdvancedNlp.TranslationWantedIffNotBlank | async_fastapi_nlp_agent_system/app/api/v1/endpoints/advanced_nlp_features.py:48 | translation is wanted exactly when a target language is given and holds a non-whitespace character |
| AdvancedNlp.Calls | async_fastapi_nlp_agent_system/app/api/v1/endpoints/advanced_nlp_features.py:40-51 | sentiment then entities run once each on the text; translation runs third, on the text and the unstripped target, exactly when it is wanted |
| AdvancedNlp.Perform | async_fastapi_nlp_agent_system/app/api/v1/endpoints/advanced_nlp_features.py:38-59 | the response copies the sentiment result, the entities and, exactly when translation is wanted, the translated text; otherwise None |
| AdvancedNlp.BlankTargetNoTranslation | async_fastapi_nlp_agent_system/app/api/v1/endpoints/advanced_nlp_features.py:47-58 | with no or a blank target the response has no translation and only two calls are made |
| AdvancedNlp.TargetOnlyAffectsTranslation | async_fastapi_nlp_agent_system/app/api/v1/endpoints/advanced_nlp_features.py:41-44 | the target language changes neither the sentiment nor the entities of the response |
| Scenarios.AgentLifecycle | tests/api/test_agents.py:23-33 | against the intended create on an empty store: the create stores the agent but the client gets 500, the get that finds it is 500 too, delete is 204, and a second get is 404 "Agent not found" |
| Scenarios.AgentCreateAsWritten | tests/api/test_agents.py:8-12 | against the create as written, any body is answered 500, nothing is stored, and a get then answers 404 "Agent not found" |
| Scenarios.EthicsIdReused | app/services/ethics_service.py:21-61 | apply, delete, apply: the second parent gets the first one's id back and its children are only the second call's principles |
| Scenarios.InfluenceDeleteThenGet | tests/api/test_influences.py:23-33 | create, delete, get: the written route answers 400, the corrected one 404 "Influence not found" |
| Scenarios.SharedStoreKeepsLaterRows | tests/api/test_influences.py:8-33 | when the tests of a module share a store, three creates and one delete leave a row: even the corrected get's handler returns it with 200, and the client gets 500 from the response check |
| Scenarios.RoleDeleteThenGet | tests/api/test_roles.py:23-33 | create, delete, get: the delete handler answers 204 with its message, the written get sends 200 with no role, the corrected one 404 |
| Scenarios.PostFeedback | app/api/v1/endpoints/feedback.py:13-22 | an invalid body is 422 with the field errors and stores nothing; a valid one is stored as given and the client gets 500 from the response check |
| Scenarios.PostBlankUser | app/schemas/feedback.py:8-12 | a whitespace-only user is refused with 422, its first error the validator's message, and nothing is stored |
| Scenarios.PostTraining | app/api/v1/endpoints/training.py:13-22 | an invalid body is 422 with the field errors and stores nothing; a valid one is committed as given and the client gets 500 from the response check |
| Scenarios.PostScaling | app/api/v1/endpoints/scaling.py:13-29 | the new row is appended with the given strategy and the store stays valid, and the client gets 500 from the response check |
| Scenarios.PostEthics | app/api/v1/endpoints/ethics.py:13-29 | the parent and one child per principle are committed and the store stays valid, and the client gets 500, so the new id is never sent |

## Left out

- Sessions, `commit`, `refresh` and the `get_db` / `get_async_db` generators are not modelled. A service call acts on its table at once. `apply_ethics` makes its two commits visible together, at the end of the method.
- `async`/`await` and concurrency are not modelled. Every call is sequential.
- ScalingService.ApplyScaling: scaling ids come from a counter held with the table, not from SQLite's rule that EthicsService.NextId models. The contracts state only that a new id differs from every id in the table, which both rules give.
- EthicsService.DeleteEthics: the NULLing of the children's `ethics_id` is SQLAlchemy's default for the plain relationship of `app/models/ethics.py`, with no `delete` cascade and no `passive_deletes`. The model assumes that default, and the database's own foreign-key enforcement is not modelled. The ids of `EthicalPrinciple` rows are not modelled.
- EthicsService.ApplyEthics: its id is the next id of the default SQLite store (`app/core/config.py`), one above the largest present. So a deleted largest id comes back. That the new parent has only its own children rests on the foreign-key invariant kept by EthicsService.DeleteEthics. Another database's id sequence is not modelled.
- FastAPI's choice of handler by the most specific exception class is a `match` on the exception kind. Router registration and dependency injection are not modelled.
- Responses.Send: the response check is modelled only by whether the schema reads the returned value. A schema without `orm_mode` reads no ORM or plain object; None and an empty list pass. Pydantic's own error is not modelled, since the client sees only the 500. The encoding of an accepted body is not modelled: the body is the returned value.
- The route members below state the handler's own result, before the response check. What the client receives is stated by the `...Sent` member named on each line:
  - Agents.CreateAgent: the client gets Agents.CreateAgentSent, 500 for a created agent.
  - Agents.GetAgent: the client gets Agents.GetAgentSent, 500 for a present agent.
  - Roles.CreateRole: the client gets Roles.CreateRoleSent, 500 for a created role.
  - Roles.GetRole: the client gets Roles.GetRoleSent, 500 for a present role.
  - Roles.DeleteRole: the client gets Roles.DeleteRoleSent, a 204 without the message.
  - Tasks.CreateTask: the client gets Tasks.CreateTaskSent, 500 for a created task.
  - Tasks.GetTask: the client gets Tasks.GetTaskSent, 500 for a present task.
  - Influences.CreateInfluence: the client gets Influences.CreateInfluenceSent, 500 for a created row.
  - Influences.GetAllInfluences: the client gets Influences.GetAllInfluencesSent, 500 once a row exists.
  - Influences.GetInfluence: the client gets Influences.GetInfluenceSent, 500 for a present row.
  - Recommendations.CreateRecommendation: the client gets Recommendations.CreateRecommendationSent, 500 for a created row.
  - Recommendations.GetRecommendation: the client gets Recommendations.GetRecommendationSent, 500 for a present row.
  - TrainingRoutes.CreateTraining: the client gets TrainingRoutes.CreateTrainingSent, 500 for a created row.
  - TrainingRoutes.GetTraining: the client gets TrainingRoutes.GetTrainingSent, 500 for a present row.
  - FeedbackRoutes.CreateFeedback: the client gets FeedbackRoutes.CreateFeedbackSent, 500 for a created row.
  - FeedbackRoutes.GetFeedback: the client gets FeedbackRoutes.GetFeedbackSent, 500 for a present row.
  - EthicsRoutes.ApplyEthics: the client gets EthicsRoutes.ApplyEthicsSent, 500 for a stored row.
  - EthicsRoutes.GetAllEthics: the client gets EthicsRoutes.GetAllEthicsSent, 500 once a row exists.
  - ScalingRoutes.ApplyScaling: the client gets ScalingRoutes.ApplyScalingSent, 500 for a stored row.
- Influences.GetInfluenceCorrected, Recommendations.GetRecommendationCorrected, TrainingRoutes.GetTrainingCorrected, FeedbackRoutes.GetFeedbackCorrected, Roles.GetRoleCorrected, Tasks.GetTaskCorrected, Tasks.UpdateTaskCorrected: these correct the handler only. With the response schema as written, a row they return still ends in 500 at the client. Only their 404 reaches the client unchanged.
- Stages.CreateStage, Stages.GetAllStages, Stages.GetStage, Stages.GetStageCorrected: `app/schemas/stage.py` is not part of this model, so it is not known whether its `Stage` schema reads a row. The stage routes are stated at the handler's result only.
- AsyncErrorHandler.Handle: the asynchronous application registers its HTTP handler for `fastapi.HTTPException` (async_fastapi_nlp_agent_system/app/middleware/error_handler.py:10). Starlette's own HTTPException, which the framework raises for an unknown path (404) or a wrong method (405), is not that class, so Starlette's default handler answers it. The model's `HttpError` stands for the FastAPI class only, and the framework's own 404 and 405 are not modelled.
- Logging is modelled only as the log record a handler would write (its prefix and the exception). The contracts of ErrorHandler.Handle and AsyncErrorHandler.Handle state which exception is logged, not the prefix text, which the bodies hold. The logger configuration and the I/O are not modelled.
- Dependencies.GetCurrentUser: JWT decoding and `UserService.get_user_by_username` are function parameters returning an optional value. A `JWTError` is a decode that gives nothing.
- AdvancedNlp.Perform: the three NLP service calls are function parameters, because they are foreign model inference. The pass-through NLP endpoints are not part of this model.
- NewsModel.News.GetSummary, TrainingModel.Training.GetSummary: `content = Column(Text)` (app/models/news.py:10, app/models/training.py:9) is nullable, and `get_summary` raises TypeError on a None content. The model's content is always a string, so that TypeError is not modelled.
- Text.IsWhitespace: it is the ASCII whitespace set of `str.strip`, not the full Unicode set. Strings are sequences of characters.
- Field validation follows Pydantic v1 order: a missing field, then `min_length`, then the `@validator`. The validator does not run on a value that failed a constraint. The wording and shape of FastAPI's own error entries are reduced to `Missing`, `TooShort` and `Custom(message)`.
- GroupService.CreateGroup stores the members list as a value. Aliasing between the caller's list and the stored row is not modelled. The class GroupModel.Group does model that aliasing.
- AgentService.CreateAgent: this is the intended create. As written, `Agent(name=name, model=model)` raises a TypeError, because the `Agent` of `app/models/agent.py` takes `model_name_or_path`. It does so before `db.add`, on every call. AgentService.CreateAgentAsWritten models that call (see "## Findings"). The transformers pipeline the intended constructor would load is not modelled.
- AgentService.CreateAgent, AgentService.GetAgent, AgentService.DeleteAgent, AgentService.ListAgents, RoleService.CreateRole, RoleService.GetRole, RoleService.DeleteRole, RoleService.ListRoles, Agents.CreateAgent, Agents.GetAgent, Agents.DeleteAgent, Roles.CreateRole, Roles.GetRole, Roles.DeleteRole, Roles.DeleteRoleFromTable, Scenarios.AgentLifecycle, Scenarios.RoleDeleteThenGet: the agent and role routes inject the synchronous `Session` of `get_db` (`app/db/session.py`). The services then `await db.commit()` and `await db.execute(...)` on it, which raises TypeError in the source. The model treats these as awaited calls on a working session.
- AgentService, RoleService, TaskService, InfluenceService, GroupService, FeedbackService, RecommendationService (all their members), and the routes and scenarios over them: `Agent`, `Role`, `Task`, `Influence`, `Group`, `Feedback` and `Recommendation` in `app/models/` are plain classes, not mapped on `Base`. So `db.add` and `select(...)` on them fail inside SQLAlchemy in the source. The model treats each as a mapped table with the columns its service uses. Only `Ethics`, `EthicalPrinciple`, `News`, `Training` and `Scaling` are mapped.
- `app/api/v1/endpoints/tasks.py` calls the async service methods without `await`. This yields coroutine objects, not rows. The model treats the calls as awaited.
- `app/api/v1/endpoints/tasks.py` imports `TaskUpdate`, which `app/schemas/task.py` does not define. `app/main.py:5-7` imports `tasks` together with every other endpoint module, so this ImportError stops the whole application from loading, and no route answers at all. Every route and scenario models the application as it would run once that import resolves. The update body is treated as a `Task`.
- `StageService` is not part of this model. The stage routes are modelled over the outcome of its calls, with a `Stage` record of name and description.
- ErrorHandler.Serve drops the headers of an `HTTPException`, as the handler's `JSONResponse` does. This includes the `WWW-Authenticate: Bearer` header of the 401 raised in `app/core/dependencies.py`.
- The exception text that the routes copy into a 400 or 500 detail is modelled as the exception itself, not its printed form.

## Findings

| source | as written | input that shows it | evidently intended | confidence | as-written member | corrected member |
|---|---|---|---|---|---|---|
| app/api/v1/endpoints/influences.py:40-46 | the 404 raised for a missing row inside `try` is caught by `except Exception` and re-raised as 400 | get of a name not stored (the delete test of tests/api/test_influences.py:31-33) | 404 "Influence not found" | not executed | Influences.GetInfluenceAbsentIs400 | Influences.GetInfluenceCorrected |
| app/api/v1/endpoints/stages.py:40-46 | the same re-mapping of the 404 to 400 | get of a name not stored (tests/api/test_stages.py:31-33) | 404 "Stage not found" | not executed | Stages.GetStageAbsentIs400 | Stages.GetStageCorrected |
| app/api/v1/endpoints/groups.py:29-35 | the same re-mapping of the 404 to 400 | get of a name not stored (tests/api/test_groups.py:31-33) | 404 "Group not found" | not executed | Groups.GetGroupAbsentIs400 | Groups.GetGroupCorrected |
| app/api/v1/endpoints/news.py:29-35 | the same re-mapping of the 404 to 400 | get of a title not stored (tests/api/test_news.py:31-33) | 404 "News not found" | not executed | NewsRoutes.GetNewsAbsentIs400 | NewsRoutes.GetNewsCorrected |
| app/api/v1/endpoints/recommendations.py:29-35 | the same re-mapping of the 404 to 400 | get of a title not stored (tests/api/test_recommendations.py:31-33) | 404 "Recommendation not found" | not executed | Recommendations.GetRecommendationAbsentIs400 | Recommendations.GetRecommendationCorrected |
| app/api/v1/endpoints/training.py:29-35 | the same re-mapping of the 404 to 400 | get of a title not stored (tests/api/test_training.py:31-33) | 404 "Training not found" | not executed | TrainingRoutes.GetTrainingAbsentIs400 | TrainingRoutes.GetTrainingCorrected |
| app/api/v1/endpoints/feedback.py:29-35 | the same re-mapping of the 404 to 400 | get of a user not stored (tests/api/test_feedback.py:31-33) | 404 "Feedback not found" | not executed | FeedbackRoutes.GetFeedbackAbsentIs400 | FeedbackRoutes.GetFeedbackCorrected |
| app/api/v1/endpoints/tasks.py:29-37 | once the service calls are awaited (as written they are not, so `task` is a coroutine, always truthy, and the 404 is never raised), the 404 raised inside `try` is not `NoResultFound`, so `except Exception` turns it into 500 "Unexpected error: ..." | get of a name not stored (tests/api/test_tasks.py:31-33) | 404 "Task not found" | not executed | Tasks.GetTaskAbsentIs500 | Tasks.GetTaskCorrected |
| app/api/v1/endpoints/roles.py:29-33 | the service result is returned with no None check, and `.first()` never raises `NoResultFound` | get of a name not stored (tests/api/test_roles.py:30-33) | 404 "Role not found" | not executed | Roles.GetRoleAbsentIsNot404 | Roles.GetRoleCorrected |
| app/api/v1/endpoints/tasks.py:44-50 | `TaskService.update_task` does not exist (app/services/task_service.py:8-72), so the `AttributeError` always ends in the 500 branch | any update with a valid body, whatever the name | 200 with the updated task, 404 when it is absent | not executed | Tasks.UpdateNeverSucceeds | Tasks.UpdateTaskCorrected |
| app/services/agent_service.py:22 | `Agent(name=name, model=model)` passes a keyword the `Agent` of app/models/agent.py:6 does not take, so a TypeError is raised before `db.add`; the agent route has no try, and the Exception handler answers 500 | any create, the body of tests/api/test_agents.py:9 included | 201 with the created agent | not executed | Scenarios.AgentCreateAsWritten | AgentService.CreateAgent |
| app/schemas/training.py:16-25 | the `Training` response schema sets no `orm_mode`, so FastAPI cannot read the committed row it is given, and the application's Exception handler answers 500 | any valid create, the body of tests/api/test_training.py:9 included | 201 with the created training | not executed | Scenarios.PostTraining | TrainingRoutes.CreateTrainingWithOrmMode |
| app/schemas/scaling.py:7-9 | the `Scaling` response schema sets no `orm_mode`: the row is stored and the client gets 500 | any apply, whatever the strategy | 201 with the new scaling row | not executed | Scenarios.PostScaling | ScalingRoutes.ApplyScalingWithOrmMode |
| app/schemas/ethics.py:8-10 | the `Ethics` response schema sets no `orm_mode` and declares `principles` as strings where the row holds `EthicalPrinciple` objects: the rows are committed and the client gets 500 | any apply, the empty list of principles included | 201 with the new ethics row | not executed | Scenarios.PostEthics | EthicsRoutes.ApplyEthicsWithOrmMode |
