# Xlerion query screen — a Dafny model of its decision logic

Xlerion is a single-screen React application. A user types a question, the question is sent to
a language model, and the answer is shown as paragraphs and list items. Users can keep a history
of saved questions and share any saved entry as text. Each user has a daily quota of questions:
5 for a guest and 100 for a registered user. The count lives in a per-day document of the
store. In this version of the component no path ever marks a user as registered, so the limit
in force is always 5. The model keeps registration as a free input, so its results cover both
limits.

Almost all of the component is wiring to the identity provider, the document store, the model's
HTTP endpoint and the browser. This project models the decisions the component makes between
those calls:

- `Quota`: the two limits, the limit in force, the "limit reached" test and the count written
  back after a successful question. The stored count is an `Option<int>`: `None` is a day
  document without a `count` field. The screen reads that as `undefined`, which never compares
  at or above the limit and counts as 0 when incremented.
- `Strings`: JavaScript's `trim`, with ECMAScript's full set of white-space and line-terminator
  characters; `split('\n')` and its inverse; the decimal form of a number.
- `Messages`: the Spanish and English texts that the submit, save and share paths write into the
  state. It also builds the "limit reached" message around the limit.
- `ResponseView`: how the answer panel splits the answer into lines, trims them, drops the blank
  ones and shows each remaining line as a list item or a paragraph.
- `History`: a saved record and the newest-first ordering of the fetched history. The ordering
  is a stable sort; a record without a timestamp sorts as time 0.
- `Share`: the text copied when a saved entry is shared.
- `Session`: the screen's state and its two actions as pure transitions.
  - `Submit` takes the model's reply, the outcome of the count write and the outcome of the
    follow-up recommendation call as inputs. It returns the state once all three have settled.
  - `Save` takes whether the store is ready and the outcome of adding the record.
  - `Run` chains presses of the submit button.

The remote services appear only as the outcomes they return: `Reply`, `Write` and `Add`. The
server's clock enters only through `Add`. The user and application ids appear only through
`Save`'s `storeReady` flag, which stands for the store, the user id and the application id all
being present. The day's date key is not modelled (see "Left out").

## Model

| member | source | states |
|---|---|---|
| Quota.Limit | src/App.js:106 | The limit in force is 100 exactly when the user is registered, and 5 otherwise. |
| Quota.Bump | src/App.js:378 | The count written back is present, differs from the stored one, and is one more than the stored count, with a missing count read as 0. |
| Quota.LimitReached | src/App.js:107 | A missing count (undefined on the screen) never reaches the limit. A present count reaches it exactly when it is at or above the limit in force. A count that has not reached it is below the limit. |
| Quota.AdmittedStaysWithinLimit | src/App.js:107 | A count the gate lets through is still within the limit after the increment. |
| Quota.RegistrationOnlyRelaxes | src/App.js:106-107 | A registered user is refused only at counts at which a guest is refused too. |
| Strings.Trim | src/App.js:580 | The trimmed string is the input with space cut from both ends, and it neither starts nor ends with a space. |
| Strings.TrimUnique | src/App.js:580 | Exactly one string has those two properties, so they pin `trim` down. |
| Strings.TrimIdempotent | src/App.js:580 | Trimming twice gives the same result as trimming once. |
| Strings.BlankIffTrimmedEmpty | src/App.js:310 | The blank-input test (only space characters) holds exactly when trimming leaves the empty string. |
| Strings.Split | src/App.js:579 | Splitting on line feeds gives at least one piece, and no piece holds a line feed. |
| Strings.JoinSplit | src/App.js:579 | Joining the pieces back with line feeds gives the original text. |
| Strings.SplitJoin | src/App.js:579 | Splitting undoes joining when no piece holds a line feed. |
| Strings.SplitConcat | src/App.js:579 | The pieces of two texts joined by a line feed are the pieces of the first text followed by those of the second. |
| Strings.Decimal | src/App.js:62 | A number interpolated into a message is a non-empty run of digits, with a leading zero only for 0. |
| Strings.DecimalRoundTrip | src/App.js:62 | Reading the decimal form back gives the number. |
| Messages.Framed | src/App.js:62 | The limit message is the fixed opening text, then digits that read back as the limit, then the fixed closing text. |
| Messages.FramedInjective | src/App.js:316 | Different limits give different limit messages. |
| ResponseView.ListItemIffMarker | src/App.js:582 | A trimmed line is classed as a list item exactly when it opens with `*`, `-` or one or more digits and a dot, followed by a white-space character. |
| ResponseView.Classify | src/App.js:580-596 | A line renders as nothing exactly when it is blank; otherwise its block holds the trimmed line. |
| ResponseView.ClassifyWellFormed | src/App.js:580-596 | A rendered block is non-empty and already trimmed, and it is a list item exactly when its text carries a list marker. |
| ResponseView.RenderLines | src/App.js:579-597 | There are never more blocks than lines, and every block is well formed. There are no blocks at all exactly when every line is blank. |
| ResponseView.RenderLinesAppend | src/App.js:579-597 | Rendering keeps the order of the lines: the blocks of two runs of lines are those of the first run, then those of the second. |
| ResponseView.RenderConcat | src/App.js:579-597 | A line feed in the answer separates blocks and adds none of its own. |
| ResponseView.RenderEmptyIffBlank | src/App.js:579-597 | An answer renders to no blocks exactly when it is blank. |
| ResponseView.RenderLine | src/App.js:579-597 | An answer without a line feed renders as the classification of its single line. |
| History.Insert | src/App.js:230 | Inserting a record adds exactly that record to the multiset, and keeps a newest-first sequence newest first. |
| History.SortNewestFirst | src/App.js:230 | The listed history is a permutation of the fetched records, with no record older than a record after it. A missing timestamp counts as 0. |
| History.SortStable | src/App.js:230 | Records with the same time keep the order in which they were fetched. |
| Share.ShareLines | src/App.js:459-463 | The shared text has these lines: the query heading, the query's lines, an empty line, the response heading and the response's lines. An empty line, the recommendation title and the recommendation's lines follow exactly when the recommendation is non-empty. |
| Share.ShareExtends | src/App.js:461-463 | The recommendation section is only ever appended after the text shared without one. |
| Session.Submit | src/App.js:309-394 | A blank query is refused with the placeholder message before the limit is looked at. A reached limit is refused with the limit message carrying the current limit. In both cases nothing else changes, whatever the calls would have returned. The count goes up by exactly one when an admitted query is answered with content and the write succeeds, and otherwise stays as it was. The query, registration and history never change. |
| Session.SubmitCallFails | src/App.js:386-390 | When the model call throws, the response is cleared and the connection error shows the call's own message. |
| Session.SubmitEmptyReply | src/App.js:383-385 | An answer without content shows the "no clear answer" text with no error, and is not counted. |
| Session.SubmitWriteFails | src/App.js:372-390 | A failed count write lands in the same handler as a failed call: the answer shown is cleared and the count stays. |
| Session.SubmitCounted | src/App.js:368-381 | A counted answer is shown, the count is one more than before, and the recommendation and error are those the follow-up call settles with. |
| Session.Recommend | src/App.js:288-298 | The follow-up call sets an error exactly when it fails, and that error carries the call's own message after the fixed Spanish prefix. An answer becomes the recommendation. An empty reply gives the Spanish "could not generate" text and a failure gives the Spanish "error generating" text, whatever the selected language. |
| Session.Shown | src/App.js:573 | The answer panel shows no blocks exactly when an error is displayed or the response is blank. Otherwise it shows the blocks of the response. |
| Session.Save | src/App.js:399-425 | Saving while the store is not ready gives the "database not ready" message. A blank query or response gives the "no query or response" message. The history changes exactly when every guard passes and the add succeeds, and then it gains exactly the new record. Past the guards, a successful add clears the error, and a failed add shows the save error with the call's own message. |
| Session.RunKeepsQuota | src/App.js:315-378 | Presses one after another never lower the count. They never take it past the limit unless it started above it. They leave the query, registration and history alone. |
| Session.RunCountsAnswers | src/App.js:374-378 | Each answered press below the limit counts exactly once: n such presses raise the count by n. |
| Session.QuotaExhausts | src/App.js:315-318 | Once answered presses have used up the limit, the count stands at the limit. Every further press is refused with the limit message, whatever its calls would return. |
| Session.RefusedShowsNothing | src/App.js:573 | A refused press leaves an error on screen, so the answer panel shows nothing. |
| Session.AnswerShown | src/App.js:573-597 | After a counted answer whose recommendation call did not fail, the panel shows exactly the blocks of that answer. |
| Session.SaveListsRecord | src/App.js:411-416 | A successful save adds exactly its record to the listed history, which stays newest first. The record keeps the query, response and recommendation as they were. |

## Left out

- Identity-provider set-up, sign-in and the random-id fallback: these are external services and
  effects. The model's state starts after them.
- The store's subscriptions and writes, and the server timestamp: the store appears as the day's
  count (`Option<int>`), the record sequence, and the `Write` / `Add` outcomes. A missing day
  document is the count `Some(0)`.
- The model's HTTP calls and their prompts: only the outcome of each call is modelled (`Reply`).
  A reply part whose `text` field is missing (the JavaScript `undefined`) is not distinguished
  from a string.
- The date key for the day: it comes from the host clock, as the UTC date. The model has no
  date, so it has one day's count document throughout.
- Session.Submit: assumes the count document the gate reads and the one the increment writes are
  the same day's. In the component, the subscription fixes its date when it is set up, while
  the write takes the date at the moment of the press. After a UTC date change without a
  reload, the gate keeps reading the old day's count, and each answered press writes that
  count plus one into the new day's document. Session.RunCountsAnswers and
  Session.QuotaExhausts inherit this assumption.
- Session.Shown: gives the blocks of the answer panel, not whether the panel itself is open.
  The panel opens whenever the response is non-empty and no error is shown. So a response made
  only of white space opens it with its heading and no blocks.
- Session.Save: places the new record last in the fetched history. The store lists a collection
  queried without an order by document id, and new ids are random, so the record's real place
  is not modelled. Only the listed history's contents and newest-first order are promised
  (Session.SaveListsRecord); where times tie, the listed order among equal times is not.
- The native share sheet, clipboard writes and the timers that clear the clipboard message:
  these are browser APIs.
- Loading flags, and two presses overlapping in time: the model runs every press to completion
  before the next one starts.
- Session.Submit: returns the state once every call has settled. It does not model the interim
  states, such as the "processing" text shown while the model is asked. It also does not model
  the moment between the recommendation call starting and finishing.
- The text table beyond the messages these paths write, and all markup and styling. The
  recommendation fallback texts are written in Spanish whatever the selected language, as in
  the code.
- Characters are Unicode scalar values, not UTF-16 code units. Every character that `trim` and
  the list-marker test look at lies in the Basic Multilingual Plane, so this makes no
  difference to those decisions.
- Timestamps are whole milliseconds held in an `int`. The comparator subtracts two dates; the
  model compares their times.
- The component has no chart or structured-reply handling, so none is modelled.
- src/index.js only mounts the component, and it is not part of this model.
