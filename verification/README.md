# Aker host browser and session lifecycle, modelled in Dafny

Aker is an SSH bastion. An operator who has already logged in sees a terminal
browser listing the hosts they may reach. Typing narrows the list. Enter picks a
host, and the core then creates a session that authenticates and connects
through an SSH client. This project models two parts of it:

- `host_filter.dfy` (module `HostFilter`): Python's substring test
  `text in hostentry`, and `Filter`, the ordered selection of host names it
  induces. The lemmas prove that the shown list holds exactly the matching
  allow-listed names, with their multiplicities, in allow-list order. They also
  prove that the empty query shows everything and that filtering is idempotent.
- `tui.dfy` (module `Tui`): the browser `Window` as a class. Its fields are the
  allow-list, the search text, the rows on screen, the one-slot popup, the exit
  flag and a ghost trace of calls into the core. `SearchChange` empties the row
  list and refills it in a loop, proved against `Filter`. `Valid()` holds after
  every operation: the rows on screen are always the start-up build or a search
  build of the *current* allow-list.
- `session.dfy` (module `Sessions`): the base session and the SSH session as one
  class. A constant `kind` says which of the two it is. Every call the session
  makes to its SSH client, the password prompt or the core's end-of-session
  callback is appended to a ghost `trace`. `StartSteps` is the reference
  definition of the credential fallback, and `Session.StartSession` is proved
  to match it.

Collaborators are inputs:
- the result of `get_priv_key()` is a `KeyResult`;
- the typed password is a parameter;
- the allow-list the core holds after `refresh_allowed_hosts(False)` is a parameter;
- the text the urwid search field sets for a forwarded key is an `Option<string>`.

The model follows the code on these points:
- `close_session` has no guard, so two calls notify the core twice (`CloseTwice`).
- After F5 the list is rebuilt with the empty text, not with the current query.
- Rows rebuilt by a search hand `host_chosen` a bare string, and Enter on such a row raises before the core is called (see "## Findings").

The urwid search field (1.x) emits its `change` signal every time its text is
set. So Esc rebuilds the list even when the query was already empty.

## Model

| member | source | states |
|---|---|---|
| `HostFilter.Contains` | tui.py:137 | `q in s` holds iff some contiguous block of `s` equals `q` |
| `HostFilter.EmptyQueryMatches` | tui.py:137 | the empty text matches every host name |
| `HostFilter.FirstCharAbsent` | tui.py:137 | a name lacking the query's first character never matches |
| `HostFilter.Filter` | tui.py:136-140 | the rebuilt list is no longer than the allow-list and holds only allow-listed names containing the text |
| `HostFilter.FilterAppend` | tui.py:136-140 | filtering a concatenation is the concatenation of the filtered parts, which is what lets the append loop be proved |
| `HostFilter.FilterComplete` | tui.py:136-140 | every allow-listed name containing the text is shown |
| `HostFilter.FilterMembership` | tui.py:136-140 | a name is shown iff it is allow-listed and contains the text |
| `HostFilter.FilterCount` | tui.py:136-140 | a matching name is shown exactly as many times as it is allow-listed; a non-matching one never |
| `HostFilter.FilterIsSubsequence` | tui.py:136-140 | the shown list keeps the allow-list's relative order |
| `HostFilter.FilterAllMatching` | tui.py:136-140 | when every name matches, the list is shown unchanged |
| `HostFilter.EmptyQueryShowsAll` | tui.py:159 | the rebuild with `""` shows the whole allow-list unchanged |
| `HostFilter.FilterIdempotent` | tui.py:133-140 | filtering the shown list again with the same text changes nothing |
| `HostFilter.DbQueryExample` | tui.py:133-140 | the text "db" over db1, db2, web1 shows db1 then db2 |
| `Tui.ChoiceOfView` | tui.py:53-56 | row `i` of the start-up build hands over the host item of the `i`-th allow-listed host with the core's port; row `i` of a search build (tui.py:138-139) hands over the bare `i`-th matching name, which is allow-listed and contains the text |
| `Tui.SearchedRowHasNoHostname` | tui.py:136-140 | as written, the choice of every row of a search build lacks the `hostname` attribute that `host_chosen` reads |
| `Tui.DbRowCannotConnect` | tui.py:59-63 | after typing "db" over db1 and web1, the first row hands over "db1.internal", a choice without `hostname` |
| `Tui.CorrectedRowsInitiate` | tui.py:53-56 | when searches build host item rows, every row of every build hands over the host item of the allow-listed host in its caption with the core's port, so the `hostname` read succeeds |
| `Tui.ViewIsOrderedSelection` | tui.py:133-140 | whatever build is on screen (start-up, search as written, corrected search), its captions are an in-order selection of the allow-list, and a name appears iff it is allow-listed and contains the build's text |
| `Tui.Window.constructor` | tui.py:99-104 | the window starts with one host row per allow-listed host, an empty query, no popup and no core calls |
| `Tui.Window.RefreshHosts` | tui.py:50-57 | one host item per allowed host, in order, each with its name and the core's default port |
| `Tui.Window.HostChosen` | tui.py:59-63 | a host item choice makes exactly one `init_connection(choice)` call; a bare-name choice fails reading `choice.hostname` and makes no call |
| `Tui.Window.SearchChangeWithItems` | tui.py:133-140 | corrected search change: the list is cleared, then holds one host item with the core's port per allow-listed host containing the text, in order |
| `Tui.Window.SelectAfterCorrectedSearch` | tui.py:59-63 | after a corrected search, Enter on row `i` goes through `host_chosen` as written and makes exactly one `init_connection` call with the host item of the `i`-th matching host and the core's port |
| `Tui.Window.RowKeypress` | tui.py:22-26 | Enter on a start-up row makes one `init_connection` call with its host item; Enter on a rebuilt row fails and calls nothing; any other key is handed back unhandled |
| `Tui.Window.SearchChange` | tui.py:133-140 | the list is cleared, then holds exactly the rows of `Filter(text, allow-list)`; no earlier row survives |
| `Tui.Window.SetEditText` | tui.py:103-104 | setting the search text rebuilds the list for that text and stores it as the query |
| `Tui.Window.PopupMessage` | tui.py:163-165 | the popup is open and shows the new message, whatever it held before |
| `Tui.Window.FetchHostsFromIdp` | tui.py:156-160 | one `refresh_allowed_hosts(False)` call, then the whole new allow-list is shown, the query is left alone, and "Hosts Refreshed" pops up |
| `Tui.Window.UpdateSearchEdit` | tui.py:143-154 | mouse input changes nothing; Esc empties the query and shows everything; F5 refreshes; F9 only sets the exit flag and leaves the loop; other keys go to the search field; only F9 does not return `True`; `Valid()` is kept |
| `Sessions.StartSteps` | session.py:61-71 | SSH session: the key is asked for once. The password is prompted once exactly when the lookup failed with "Core: Invalid Private Key". The key or that password starts the client exactly once. Any other failure is re-raised unchanged without starting the client. No prompt happens in any other case. On the fallback the prompt comes right after the key lookup, a successful start ends with the client start, and nothing but these three kinds of step happens. Base session (session.py:39-40): fails with not-implemented and does nothing else |
| `Sessions.Session.constructor` | session.py:20-27 | the acting user is the core user's name, the port is kept, the source port comes from the core's configuration, and host and uuid are stored unchanged |
| `Sessions.Session.AttachSniffer` | session.py:30-31 | the sniffer is passed to the client unchanged; a session without a client fails |
| `Sessions.Session.StopSniffer` | session.py:33-34 | the client is told to stop sniffing; a session without a client fails |
| `Sessions.Session.Connect` | session.py:36-37 | the client receives exactly (host, host port, size) |
| `Sessions.Session.StartSession` | session.py:61-71 | the outcome and the appended events are exactly those `StartSteps` gives for this session's kind and user |
| `Sessions.Session.CloseSession` | session.py:42-43 | each call appends exactly one end-of-session callback carrying this session |
| `Sessions.Session.KillSession` | session.py:45-47 | whatever the signal and frame, the trace changes exactly as for `CloseSession` |
| `Sessions.Session.CloseTwice` | session.py:42-43 | closing twice appends two end-of-session callbacks carrying this session, and nothing else |

## Left out

- urwid layout, palette, header, footer, `MainLoop.run` and `draw_screen` (tui.py:65-129, tui.py:62): these are rendering in a foreign library. Only the rows, the query, the popup fields and the exit flag are modelled.
- `start`, `stop`, `pause`, `restore` (tui.py:167-181): they only start and stop the raw terminal screen.
- The popup widget `SimplePopupLauncher` is not part of this model. Only its message and open flag are kept. The initial state (closed, empty message) is an assumption, and no dismissal is modelled because the source shows none.
- How the urwid search field edits its text for a key (cursor, deletion, insertion) belongs to urwid. It is the parameter `edited`.
- Navigation keys handled by the list box before reaching `update_search_edit` are not modelled.
- The identity-provider fetch behind `refresh_allowed_hosts`: after the call, the allow-list is an arbitrary sequence (`fetched`). A failing fetch is not modelled.
- `getpass` terminal input: the password is a parameter. `get_priv_key` is a `KeyResult` parameter.
- The SSH client is a recorder of calls. Its internals are out of scope, and so are failures it raises from `connect` or `start_session`; in the source those propagate unchanged.
- Logging calls.
- The asynchronous delivery of the signal that runs `kill_session`. Only its synchronous effect is modelled.
- `Sessions.Session.constructor`: does not model Python's `int(port)` conversion of a string, or its failure. The port is already an `int`.
- `Tui.Window.HostChosen`: what `init_connection` does, and any exception it raises (tui.py:63 does not catch it, so it leaves `host_chosen`), is not modelled; only the call is recorded.
- The end-of-session callback's own behaviour in the core is not part of this model. Only the call is recorded.

## Findings

| source | as written | input that shows it | evidently intended | confidence | as-written member | corrected member |
|---|---|---|---|---|---|---|
| tui.py:139 with tui.py:61 | rows rebuilt by `search_change` connect `host_chosen` to the bare string `hostentry`, and `host_chosen` reads `choice.hostname` before calling `init_connection`, so Enter on any such row raises AttributeError and no session starts | allow-list ["db1.internal", "web1.internal"], type "db", press Enter on the first row | search-built rows are host items with the core's port, as start-up rows are (tui.py:54-55), so activating any row starts a connection to the host it shows | high, not executed | `Tui.DbRowCannotConnect` (with `Tui.SearchedRowHasNoHostname`, `Tui.Window.HostChosen`) | `Tui.Window.SelectAfterCorrectedSearch` (with `Tui.Window.SearchChangeWithItems`, `Tui.CorrectedRowsInitiate`) |
