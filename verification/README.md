# Bay Area medical assistant page: filtering and chat turn

A model of the pure logic inside `app.py`, the single Streamlit page of a cross-border
(Greater Bay Area) medical-facility map with a chat box. The page loads a CSV of facilities,
paints each facility's marker by its raw type (`类型`), reads the latest user message from the
session's chat log, classifies it against three keyword groups (Tier-A `三甲`; policy
`港澳`/`药械通`/`医疗券`; private `私立`/`诊所`), narrows the map to the matching rows, and
answers each user message with a canned reply that quotes it.

The model is a set of pure functions:

- `Substrings` — Python's `sub in s` as `Contains`, and a scanning `Search` proved to decide it.
- `Facilities` — a row (`lat`, `lon`, optional type, optional colour), a frame with flags for
  the `类型` and `color` columns, the colour rule `GetColor`, and the loader `Load` taken as a
  function of the outcome of reading the CSV, including its fallback to an empty frame.
- `Conversation` — the chat log as an explicit `seq<Message>`; latest-query extraction,
  submission, the reply step, and the invariant `Settled` (every question followed by its reply).
- `Filtering` — the classifier `Classify`, the mask selection `Select`, and `FilterView`,
  which yields the frame for the map and the status line (or the `KeyError` on a missing
  `类型` column).
- `Page` — one run of the script, including the rerun that follows a submission.

Notes on the reading of the code:

- A pandas frame is `empty` when it has no rows; every frame here has columns, so `IsEmpty` is
  "no rows".
- `str.contains` is called with patterns that hold no regular-expression metacharacters, so it
  is plain substring containment; `na=False` makes a missing type never match (`Kept`).
- The policy group filters on `港澳` only, while the colour rule also paints `药械通` red;
  the model keeps this, and `PolicyViewDropsSchemeOnlyRows` states its consequence. Likewise
  the private/clinic group filters on `私立` only (`ClinicViewDropsNonPrivateClinics`).
- When the CSV has no `color` column and no `类型` column either, indexing `类型` raises inside
  the guarded block and the loader returns the fallback frame. When a non-empty frame has a
  `color` column but no `类型` column, a keyword query raises while filtering, outside any guard, and
  the run stops before the reply is appended (`Page.Crashed`).
- `st.rerun()` after a submission restarts the script; on the rerun the chat box yields nothing,
  so the filter then sees the new question and the reply step answers it.
- Roles are a two-valued datatype because the log is only ever written with `"user"` and
  `"assistant"`.

## Model

| member | source | states |
|---|---|---|
| Substrings.Search | app.py:52-53 | the scan finds an occurrence exactly when the substring occurs (Python `in`), and reports the first one |
| Substrings.ContainsInfix | app.py:168 | text placed between two strings occurs in the concatenation |
| Facilities.GetColor | app.py:50-54 | red exactly when a present type contains 港澳 or 药械通; blue exactly when it does not but contains 三甲; green exactly for a missing type or one with none of them |
| Facilities.PolicyOutranksTierA | app.py:52-53 | a type containing both 三甲 and a policy spelling is red |
| Facilities.Load | app.py:45-59 | read failure gives the empty frame with lat/lon/类型/color; an existing color column is returned untouched; without color and 类型 the fallback; otherwise every row gets the colour of its type and keeps every other cell |
| Facilities.LoadWellFormed | app.py:49-55 | loading keeps rows consistent with the columns present, and derived colours are among the three codes |
| Conversation.LatestQuery | app.py:72-76 | the query is the last message's content when the log is non-empty and that message is the user's, and "" otherwise; a non-empty query is some user message's text |
| Conversation.Submit | app.py:149-151 | a non-empty prompt is appended as one user message at the end with the earlier log unchanged; an empty or absent prompt changes nothing |
| Conversation.ReplyText | app.py:168 | the reply quotes the question and is longer than it |
| Conversation.Respond | app.py:160-173 | when the last message is the user's, exactly one assistant message containing that text is appended and nothing earlier changes; otherwise the log is unchanged; afterwards no reply is owed |
| Conversation.FreshSessionIsSettled | app.py:68-69 | the initial empty log owes no reply and yields no query |
| Conversation.QueryAfterSubmit | app.py:72-76 | after a submission the latest query is the submitted text |
| Conversation.QueryAfterRespond | app.py:160-173 | after the reply step the latest query is "" |
| Conversation.SettledIsAnswered | app.py:160 | on a log of completed turns the reply step does nothing |
| Conversation.TurnKeepsSettled | app.py:149-173 | a user turn appends the question then its reply, in that order, and keeps every question answered |
| Filtering.Classify | app.py:83-91 | Tier-A exactly when the query contains 三甲; policy exactly when it does not but contains 港澳, 药械通 or 医疗券; private exactly when neither group matches and it contains 私立 or 诊所; no filter otherwise |
| Filtering.Select | app.py:85 | the selection is an order-preserving subsequence, every kept row has a present type containing the key, every such input row is kept, with the same multiplicity |
| Filtering.FilterView | app.py:79-91 | empty frame, empty query or no keyword: data unchanged and status line ""; a matched group on a frame without 类型 fails; otherwise the group's status line and an order-preserving subsequence holding exactly the rows whose type contains the group's key, each as many times as in the input |
| Filtering.FilterKeepsWellFormed | app.py:79-91 | filtering keeps rows consistent with the columns present |
| Filtering.TierAQueryWins | app.py:83-85 | a query containing 三甲 filters on 三甲 with the Tier-A status line, whatever else it contains |
| Filtering.PolicyViewDropsSchemeOnlyRows | app.py:86-88 | under a policy query a row typed 药械通 without 港澳, to which the colour rule `GetColor` gives red, is excluded |
| Filtering.ClinicViewDropsNonPrivateClinics | app.py:89-91 | under a private/clinic query a row typed 诊所 without 私立 is excluded |
| Filtering.FilteredRowsColour | app.py:83-88 | the colour rule `GetColor` gives red to every row of a policy view, and blue to every row of a Tier-A view unless its type is also a policy type |
| Filtering.LoadedViewColour | app.py:49-55 | on a frame whose color column the loader derived, the colour cell the map paints is red for every row of a policy view and blue for every row of a Tier-A view unless its type is also a policy type |
| Filtering.NearbyTierAExample | app.py:83-85 | asking 附近的三甲医院 over five rows, two Tier-A, shows exactly those two in order |
| Page.Run | app.py:72-173 | a run only appends to the log, by at most two messages; a rendered page owes no reply; a crashed run leaves the user's question unanswered |
| Page.IdleRun | app.py:72-91 | when the last message is not the user's and nothing is submitted, the page shows the whole frame, no status line, and the log unchanged |
| Page.UserTurn | app.py:149-173 | when no reply is owed, a submitted question yields the view filtered by that question and a log extended by the question and its reply; a settled log stays settled |
| Page.MissingKindColumnTurn | app.py:85 | when no reply is owed, a keyword question over a non-empty frame lacking 类型 stops the run with the question unanswered |
| Page.CrashIsSticky | app.py:82-85 | after a crash every later run crashes again with the same log, so the chat box is never reached again |

## Left out

- Page configuration, CSS, columns, legend, chat bubbles, spinner and the welcome message (app.py:11-39, 97-143, 161-170): presentation only.
- `st.session_state` storage: the log is passed in and returned as a value.
- Reading the CSV with pandas and the `@st.cache_data` memoisation (app.py:44-47): file I/O and a library cache; `Load` takes the outcome of reading as its argument, so repeated loads are equal by construction.
- Map rendering with `st.map` (app.py:121-124): an external component; coordinates are carried as opaque `real` fields and never inspected, and floating-point behaviour is not modelled.
- Columns other than lat, lon, 类型 and color: the page never reads them, and copying or filtering the frame keeps them with their row.
- Cell values of the 类型 column that are neither text nor missing, and pandas' refusal of the `.str` accessor on a column that holds no text at all: dtype behaviour of the library is not modelled; a type cell is either a string or missing.
- The unused `openai`, `folium`, `os` and `streamlit_folium` imports: no language-model call is made, so no prompt construction is modelled.
- Page.Run assumes the map call at app.py:122 returns normally: a loaded frame is not checked for `lat`/`lon` columns (a `Row` always carries coordinates), so a CSV lacking them, on which `st.map` raises before the reply is appended, is modelled as rendering with the reply added.
