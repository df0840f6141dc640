# wk2op in Dafny

A model of `wk2op.py`, a one-shot script that copies a Wekan board export into
an OpenProject project over its REST API. It does the following:

1. It checks the export's `_format` marker.
2. It fetches the OpenProject statuses and maps every Wekan list to a status href.
3. For each card, in export order, it creates one top-level work package.
4. It then posts every comment on the card as an activity, quoted in markdown.
5. Last, it creates one subtask work package per item of the card's first checklist.

Any failed lookup aborts the whole run. Requests already sent stay sent.

The model has these modules:

- `Records`: the export records, the fetched statuses, the request payloads and the script's hardcoded tables (`wekan-board-1.0.0` marker, version href, user map, status map).
- `Text`: the Python string operations the script relies on: slices `[:n]` and `[n:]`, and `str.replace`. It also defines splitting and joining on newlines; the script does neither, but the comment quoting is stated in those terms.
- `Seqs`: selection in export order, i.e. the `for ... if ...: continue` loops.
- `Statuses`: the `op_statuses` and `statuses` dictionaries.
- `Selection`: which comments, checklist and checklist items belong to a card.
- `Payloads`: the card, comment and subtask payloads, with the comment author mention, date and quoting.
- `Migration`: the run as a specification, plus the imperative driver proved against it:
  - `Steps` lists what the script would do: a request to send, or the failure that stops it.
  - `Run` is those steps cut off at the first failure.
  - `Migrate` and its nested loops (`PostCards`, `PostCard`, `PostComments`, `PostSubtasks`) are proved to send exactly `Run`'s requests and to stop with its failure.
- `RunProperties`: a run that ends without failure creates every card once, in export order, as a top-level work package with the card's title.
- `Fetch`: request preparation in `fetch`:
  - header defaults are written into the caller's dict in place, or into the one default dict shared by every call that passes none;
  - URLs relative to the endpoint are resolved;
  - the optional body is handled.

The server hands out work-package ids. They are an input of the model: `idOf(i)` is the id the server gives card `i`'s work package. The statuses returned by `GET /statuses` are an input too.

## Model

| member | source | states |
|---|---|---|
| Seqs.Filter | wk2op.py:120-122 | the selected elements are elements of the input that pass the test, and every input element that passes is selected |
| Seqs.FilterAppend | wk2op.py:120-122 | selecting from `a + b` is selecting from `a`, then from `b`, so export order is kept |
| Seqs.FilterMap | wk2op.py:143-145 | the one-pass "skip, else act" loop shape; `FilterMapIsMapFilter` and `FilterMapAppend` state that it is selecting then transforming, and that it distributes over concatenation |
| Seqs.FilterMapIsMapFilter | wk2op.py:143-145 | the one-pass "skip, else act" loop shape equals selecting first and then transforming each selected element |
| Seqs.FilterMapAppend | wk2op.py:143-145 | the one-pass loop over `a + b` is the loop over `a` followed by the loop over `b` |
| Text.Prefix | wk2op.py:86 | the slice `[:n]`: `min(n, len)` characters, a prefix of the string |
| Text.Drop | wk2op.py:124 | the slice `[n:]`: what follows the `[:n]` slice, so the two rejoin to the string |
| Text.Replace | wk2op.py:124-130 | Python's `str.replace` for a non-empty pattern; its properties are stated by `ReplaceAbsent`, `ReplaceCharAppend` and `ReplaceRemovesAll`, and its three uses by `AuthorOfUserHref`, `DateOfTimestamp` and `QuoteLines` |
| Text.ReplaceRemovesAll | wk2op.py:125 | every occurrence of a one-character pattern is replaced: none is left when the replacement does not contain it |
| Text.ReplaceAbsent | wk2op.py:124 | a string in which the pattern occurs nowhere is unchanged |
| Text.ReplaceAbsentFirst | wk2op.py:125 | in particular, a string without the pattern's first character is unchanged |
| Text.ReplaceAbsentExample | wk2op.py:124 | `users` holds an `s` but no `s/`, and is unchanged by the author rewrite |
| Text.ReplaceCharAppend | wk2op.py:130 | replacing a one-character pattern distributes over concatenation |
| Text.Lines | wk2op.py:130 | splitting on newlines gives at least one line, none containing a newline |
| Text.UnlinesLines | wk2op.py:130 | splitting on newlines and joining with newlines gives the text back |
| Text.LinesUnlines | wk2op.py:130 | joining newline-free lines and splitting again gives the lines back |
| Statuses.StatusTable | wk2op.py:78 | a status name is a key of `op_statuses` exactly when some fetched status carries it |
| Statuses.LastFetchedWins | wk2op.py:78 | a name maps to the href of its last occurrence in the fetched list |
| Statuses.Resolve | wk2op.py:79 | a list resolves exactly when its title is in the status map and that status name was fetched; otherwise it fails with the first missing key |
| Statuses.ListStatuses | wk2op.py:79 | succeeds exactly when every list resolves, with the list ids as keys; otherwise fails with the error of the first list that does not resolve |
| Statuses.LastListWins | wk2op.py:79 | a list id maps to the status of the last list carrying that id |
| Statuses.DoingResolvesToInProgress | wk2op.py:70-79 | a board whose one list is titled "Doing" gets the fetched "In progress" href |
| Selection.CommentsOn | wk2op.py:120-122 | a comment is posted for the card exactly when its `cardId` is the card's id |
| Selection.FirstChecklist | wk2op.py:141 | `None` exactly when no checklist belongs to the card, otherwise the first one that does |
| Selection.ItemsOf | wk2op.py:143-145 | an item is used exactly when its `checklistId` is the checklist's id |
| Selection.SubtaskItems | wk2op.py:141-145 | the items that become a card's subtasks: none when no checklist belongs to the card, and otherwise items of the board; `FirstChecklistItemsKept` and `LaterChecklistIgnored` state that they are exactly those of its first checklist |
| Selection.LaterChecklistIgnored | wk2op.py:141-145 | no item of a card's second or later checklist becomes a subtask |
| Selection.FirstChecklistItemsKept | wk2op.py:141-145 | the subtask items are the items of the card's first checklist |
| Payloads.CardPayload | wk2op.py:84-106 | fails exactly on an unknown list id (checked first) or a null description, with the matching error. Otherwise: subject, start date (first 10 characters), status and version always; description only when non-empty; due date only when present and non-empty; assignee only when the first member is mapped |
| Payloads.AssigneeFromFirstMemberOnly | wk2op.py:103-106 | members after the first never change the payload |
| Payloads.AssigneeNeverFails | wk2op.py:103-106 | an unmapped or missing member never makes the card fail |
| Payloads.CommentAuthor | wk2op.py:124 | the author mention; `AuthorOfUserHref` and `MappedAuthors` state that a user href `/api/v3/users/<n>` gives `user#<n>`, for every mapped user |
| Payloads.AuthorOfUserHref | wk2op.py:124 | the href `/api/v3/users/<id>` becomes the mention `user#<id>` |
| Payloads.MappedAuthors | wk2op.py:124 | every user in the user map gets the mention `user#` followed by the number at the end of its href |
| Payloads.CommentDate | wk2op.py:125 | the comment date; `DateOfTimestamp` states that `<day>T<hh:mm>...` gives `<day> at <hh:mm>` |
| Payloads.DateOfTimestamp | wk2op.py:125 | a timestamp `<day>T<hh:mm>...` gives `<day> at <hh:mm>` |
| Payloads.Quote | wk2op.py:130 | the markdown block quote of the comment text; `QuoteLines` and `UnquoteQuote` state that it prefixes every line with `> ` and loses nothing |
| Payloads.QuoteLines | wk2op.py:130 | the quoted text has one line per original line, each `> ` followed by that line |
| Payloads.UnquoteQuote | wk2op.py:130 | removing `> ` from every quoted line gives the comment text back |
| Payloads.CommentRaw | wk2op.py:130 | the raw comment body; `CommentRawLines` states that it is the header line followed by the quoted lines |
| Payloads.CommentRawLines | wk2op.py:130 | a comment body is one header line `<author> posted on <date>:` followed by the quoted lines of the text |
| Payloads.CommentStep | wk2op.py:124-135 | fails exactly when the author is not in the user map; otherwise a markdown comment posted to the work package's activities |
| Payloads.ExampleComment | wk2op.py:124-130 | the comment "line1\nline2" by the user mapped to `/api/v3/users/9` at 2024-01-05T10:00 has the body `user#9 posted on 2024-01-05 at 10:00:\n> line1\n> line2` |
| Payloads.ExampleDate | wk2op.py:125 | `2024-01-05T10:00:00.000Z` becomes `2024-01-05 at 10:00` |
| Payloads.QuoteTwoLines | wk2op.py:130 | two newline-free lines are quoted as `> a\n> b` |
| Payloads.ExampleQuote | wk2op.py:130 | "line1\nline2" is quoted as "> line1\n> line2" |
| Payloads.SubtaskPayload | wk2op.py:147-158 | status "Closed" for a finished item, else "New", and fails exactly when that status was not fetched; the subject is the item title, the parent is the card's work package, and nothing else is set |
| Migration.Sequence | wk2op.py:83-166 | steps carried out until the first failure, which aborts the script; `SequenceSendsUntilFailure` and `SequenceStopped` state what is sent and that nothing follows a failure |
| Migration.SequenceSendsUntilFailure | wk2op.py:83-166 | a run sends the requests of the steps before the first failure, in order, and stops with that failure; without failure it sends every step's request |
| Migration.SequenceStopped | wk2op.py:83-166 | once a run has failed, later steps add nothing |
| Migration.CardStep | wk2op.py:109-110 | the card's work-package request, or its payload's failure; `CardCreatesOne` states that it is the card's one top-level creation, titled after it |
| Migration.SubtaskStep | wk2op.py:161-162 | a checklist item's work-package request, or its payload's failure; `SubtasksCreateNoCard` states that it always names a parent |
| Migration.CommentSteps | wk2op.py:120-135 | the card's comment requests; `CommentStepsOfSelected` states that there is one per selected comment, in order |
| Migration.SubtaskSteps | wk2op.py:143-162 | the subtask requests for the items of one checklist; `ChecklistStepsOfSelected` and `PostSubtasks` state that they are one per item of that checklist, in order, and that the item loop sends them |
| Migration.ChecklistSteps | wk2op.py:141-162 | the card's subtask requests; `ChecklistStepsOfSelected` states that there is one per item of its first checklist, in order |
| Migration.CardSteps | wk2op.py:109-166 | everything done for one card; `CardStepsRun` states its run as the card, then its comments, then its subtasks |
| Migration.CardsSteps | wk2op.py:83-166 | the steps of the card loop over the first `n` cards; `CardsRunSteps` states that running them is running the cards one after another |
| Migration.CardRun | wk2op.py:84-166 | the run of one card iteration; `CardStepsRun` states it is the card, then its comments, then its subtasks, and `CardCreatesOne` that a successful one creates exactly one top-level work package titled after the card |
| Migration.CardsRun | wk2op.py:83-166 | the card loop, card by card; `CardsRunSteps` and `StopsAfterFailure` state that it runs the concatenated card steps and that nothing follows a failed card |
| Migration.Steps | wk2op.py:56-166 | everything the script does: the format check, the status fetch and resolution, then the cards; `WrongFormatSendsNothing`, `UnresolvedStatusStopsRun` and `ResolvedRun` state its three cases |
| Migration.Run | wk2op.py:56-166 | the whole script as the requests it sends and the failure that ends it; `Migrate` is proved to do exactly this, and `EveryCardCreatedOnce` states what a run without failure creates |
| Migration.CommentStepsOfSelected | wk2op.py:120-135 | the comment requests are one per comment selected for the card, in export order |
| Migration.ChecklistStepsOfSelected | wk2op.py:141-162 | the subtask requests are one per item of the card's first checklist, in export order |
| Migration.WrongFormatSendsNothing | wk2op.py:56-57 | a wrong format marker aborts before any request |
| Migration.UnresolvedStatusStopsRun | wk2op.py:78-79 | a list that does not resolve aborts right after the status fetch, before any work package is created |
| Migration.BuildCardPayload | wk2op.py:84-106 | building `work_project` member by member gives `CardPayload` |
| Migration.PostComments | wk2op.py:120-138 | the comment loop sends exactly the card's comment requests up to the first failure, and reports that failure |
| Migration.PostSubtasks | wk2op.py:143-166 | the checklist-item loop sends exactly the checklist's subtask requests up to the first failure, and reports that failure |
| Migration.CardsRunSteps | wk2op.py:83-166 | running the cards one after another, each only after the previous succeeded, is running their concatenated steps |
| Migration.StopsAfterFailure | wk2op.py:83-166 | once a card has failed, the cards after it add nothing |
| Migration.ResolvedRun | wk2op.py:78-83 | when every list resolves, the run is the status fetch followed by the card loop |
| Migration.CardStepsRun | wk2op.py:109-166 | a card's run is its work package, then its comments, then its subtasks, each part only if the parts before it succeeded |
| Migration.PostCard | wk2op.py:84-166 | one iteration of the card loop sends exactly that card's requests and stops at its first failure |
| Migration.PostNextCard | wk2op.py:83-166 | after cards `0..i-1` succeeded, posting card `i` extends the run to cards `0..i` |
| Migration.PostCards | wk2op.py:83-166 | the card loop sends exactly the cards' requests, in export order, up to the first failure |
| Migration.Migrate | wk2op.py:56-166 | the whole script sends exactly `Run`'s requests and ends with its failure |
| Fetch.AuthHeader | wk2op.py:25-27 | `Basic ` followed by the encoded `apikey:<token>` |
| Fetch.WithDefaults | wk2op.py:21-27 | the caller's headers are kept; `Content-Type: application/json` and the `Authorization` header are added only when missing |
| Fetch.WithDefaultsIdempotent | wk2op.py:21-27 | filling in defaults a second time changes nothing, whatever the token |
| Fetch.ResolveUrl | wk2op.py:29-30 | a URL starting with `http` is used as given; anything else is prefixed with the endpoint |
| Fetch.ResolveUrlIdempotent | wk2op.py:29-30 | with an `http` endpoint every resolved URL is absolute, so resolving again changes nothing |
| Fetch.BodyData | wk2op.py:32-34 | data is sent exactly when the body is present and non-empty, and it is the body |
| Fetch.Headers.constructor | wk2op.py:21 | a header dict with the given entries |
| Fetch.Client.constructor | wk2op.py:13-21 | the token and endpoint, with an empty default header dict |
| Fetch.Client.Prepare | wk2op.py:21-36 | the caller's dict is updated in place to `WithDefaults` of its old entries; the request carries the resolved URL, the verb, the body data and those headers |
| Fetch.Client.PrepareWithDefaults | wk2op.py:21-36 | a call without headers updates the one shared default dict, so what one call fills in is already there for the next |
| RunProperties.CommentsCreateNothing | wk2op.py:120-135 | comment requests never create a work package |
| RunProperties.SubtasksCreateNoCard | wk2op.py:147-162 | subtask requests always name a parent, so none creates a top-level work package |
| RunProperties.CardCreatesOne | wk2op.py:84-166 | a card that goes through creates exactly one top-level work package, titled after the card |
| RunProperties.CardsCreatedInOrder | wk2op.py:83-110 | a card loop without failure creates the cards' titles, in export order, once each |
| RunProperties.CompletedRunResolved | wk2op.py:56-79 | a run ends without failure only if the format matched and every list resolved |
| RunProperties.EveryCardCreatedOnce | wk2op.py:56-166 | a run without failure creates one top-level work package per card, in export order, titled after the card |

## Left out

- The HTTP transport (wk2op.py:36-47): `urlopen`, reading the JSON response and the `HTTPError` path. A failed request also aborts the script, which the model does not represent; server ids come in as `idOf`, and the fetched statuses as a parameter.
- `b64encode` and the UTF-8 encoding of `apikey:<token>` are the `encode` parameter of `Fetch.Client`.
- The UTF-8 encoding of the request body is left out: the request data is the body string itself, not bytes.
- `json.dumps` of the payloads is left out: payloads are records, not serialised JSON.
- Reading the environment variables (wk2op.py:13-18), the command line and the export file (wk2op.py:51-54) are left out; the export is a `Board` value.
- `print` output and the dry-run branches taken when `RUN` is false (wk2op.py:113-116, 136-138, 164-169) are left out; `RUN` is always true in the script.
- The default `method='GET'` of `fetch` (wk2op.py:21) is left out: `Fetch.Client.Prepare` takes the verb explicitly, and the `Get`/`Post` requests of `Migration` are not linked to a prepared request.
- Header-name normalisation inside `urllib` is left out; header names are compared as written.
- `str.replace` with an empty pattern is left out; every pattern the script uses is non-empty.
- JSON values of unexpected types are left out: missing required keys, a non-string title, a `members` that is not a list. The only ones modelled are a `null` or absent `description` and `dueAt`. A `null` description makes `len()` raise in the script, modelled as the failure `DescriptionNotText`.
- Payloads.CommentStep: its contract states the failure, the URL and the markdown format, not the raw text. The raw text is stated by `CommentRawLines`, `UnquoteQuote` and `ExampleComment`.
