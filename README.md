# Proton VPN GTK app: exception routing, port-forward notifications, search results, pre-release script

A Dafny model of four small pieces of the Proton VPN Linux desktop client.

- **Exception handler** (`exception_handler.dfy`, module `ExceptionHandling`).
  The application-wide handler for uncaught exceptions. `HandleException` is a
  first-match-wins classification with six branches:
  1. session expired;
  2. API not reachable: a fixed non-blocking message and a WARNING log;
  3. a ProtonAPIError with a non-empty `error`: that text shown non-blocking and logged at ERROR;
  4. an AssertionError: re-raised;
  5. any other `Exception`: the generic message as a blocking dialog and a CRITICAL log;
  6. anything else: re-raised.

  The exception is a record of independent "is-a" flags plus the instance's
  ProtonAPIError-ness and `error` attribute. The result is an `Outcome`: the
  widget calls, the log records and what is raised. `enable`/`disable` are
  methods of a class over an `Interpreter` object that holds the
  `sys.excepthook` and `threading.excepthook` slots. Two behaviours of the
  code are kept as written. `disable` always puts the
  platform default back into the main slot, because the main hook is never
  saved. The thread hook is saved again on every `enable`, so `enable` twice
  and then `disable` leaves the handler's own thread hook installed.
- **Port-forward widget** (`port_forward.dfy`, module `PortForward`). Its
  implementation file, `proton/vpn/app/gtk/widgets/vpn/port_forward_widget.py`,
  is not part of this model. The widget's behaviour is taken from the
  assertions of its unit tests, and the model is a class that remembers the
  last forwarded port. For every new state it emits visibility: true iff the
  state is Connected and carries a port. It shows one "Port forwarding"
  notification when a Connected state carries a port other than the
  remembered one. The revealer sets reveal-child to the value it receives and
  hands each state to the widget unchanged. Copying writes `str(port)` with
  its UTF-8 byte count to the clipboard.
- **Search results** (`search_results.dfy`, module `SearchResults`). The
  `countries` producer gives the set of entry countries whose lowercased name
  contains the search text. The `servers` producer gives, in list order, the
  servers the user's tier allows whose lowercased name contains the text.
  `FilteredList.update` builds the tree store from both, flattened here into a
  sequence of rows in insertion order; each row records the index of its
  parent row. A non-empty section gets a header with its full count and at
  most MAX + 1 = 101 items. A root-level "..." row follows once index 100 is
  reached, so it also appears when there are exactly 101 items. With an empty
  server list, `servers` yields one `(None, None)` item. With no server list
  at all (None), iterating it raises a TypeError, and the rebuild stops there.
- **Pre-release script** (`pre_release.dfy`, module `PreRelease`). The
  versions file is read with `readlines` in text mode. The first line becomes
  `rstrip(line) + pre_release + "\n"`, and every line is written back in order.
  An empty file reads as no lines and fails at `content[0]`.

`text.dfy` (module `Text`) holds the Python string behaviour these rely on:
- `str(int)` and its inverse;
- ASCII `lower`;
- the substring test;
- `isspace`/`rstrip`;
- UTF-8 length;
- universal-newline translation and `readlines`.

`optional.dfy` holds `Option`.

## Model

| member | source | states |
|---|---|---|
| `ExceptionHandling.HasServerMessage` | proton/vpn/app/gtk/widgets/exception_handler.py:80 | the truthiness of `isinstance(exc_value, ProtonAPIError) and exc_value.error`: false without an instance or for another class; on a ProtonAPIError false for None and "", true for any other text |
| `ExceptionHandling.Classify` | proton/vpn/app/gtk/widgets/exception_handler.py:74-88 | first match wins, each branch stated as an iff: session expiry iff the auth-needed flag, whatever else holds; API-unreachable iff that flag and not auth-needed; then the server-message branch iff a non-empty `error`, whatever the type; then assertion iff an AssertionError; then the generic branch iff an Exception; otherwise the re-raise |
| `ExceptionHandling.OnProtonApiNotReachable` | proton/vpn/app/gtk/widgets/exception_handler.py:90-99 | exactly one non-blocking fixed "not reachable" message and one WARNING log with category API, event ERROR and the exception context |
| `ExceptionHandling.OnProtonApiError` | proton/vpn/app/gtk/widgets/exception_handler.py:101-107 | exactly the server's `error` text shown non-blocking and logged at ERROR with APP/ERROR |
| `ExceptionHandling.OnException` | proton/vpn/app/gtk/widgets/exception_handler.py:109-118 | exactly one blocking generic message and one CRITICAL log with APP/CRASH |
| `ExceptionHandling.HandleException` | proton/vpn/app/gtk/widgets/exception_handler.py:63-88 | session expiry: only `session_expired`, no log; a raise happens iff the branch is assertion or non-Exception, and then no display and no log; otherwise exactly one display and (except session expiry) one log with the full context; a blocking dialog iff the generic-Exception branch; the three logging branches equal their helpers, with each log's level, message, category and event given; assertions re-raise the instance (TypeError when it is None), non-Exceptions the instance or else the class |
| `ExceptionHandling.HandleThreadException` | proton/vpn/app/gtk/widgets/exception_handler.py:54-61 | same outcome as the main-thread handler on the args' type, value and traceback |
| `ExceptionHandling.EmptyServerMessageFallsThrough` | proton/vpn/app/gtk/widgets/exception_handler.py:80-86 | a ProtonAPIError whose `error` is None or "" is classified as if it were not one, so an Exception of that kind gets the blocking generic dialog |
| `ExceptionHandling.ExceptionHandler.constructor` | proton/vpn/app/gtk/widgets/exception_handler.py:21-26 | saves the thread hook installed at construction |
| `ExceptionHandling.ExceptionHandler.Enable` | proton/vpn/app/gtk/widgets/exception_handler.py:28-44 | both slots hold the handler's own hooks; the saved slot holds the thread hook found on entry |
| `ExceptionHandling.ExceptionHandler.Disable` | proton/vpn/app/gtk/widgets/exception_handler.py:46-52 | main slot is the platform default whatever it held; thread slot is the last saved hook |
| `ExceptionHandling.EnableThenDisable` | proton/vpn/app/gtk/widgets/exception_handler.py:35-52 | enable then disable restores the thread hook exactly but leaves the platform default in the main slot |
| `ExceptionHandling.EnableTwiceThenDisable` | proton/vpn/app/gtk/widgets/exception_handler.py:35-52 | enable, enable, disable leaves the handler's own thread hook installed |
| `ExceptionHandling.DisableWithoutEnable` | proton/vpn/app/gtk/widgets/exception_handler.py:21-52 | disable without enable restores the thread hook seen at construction and the default main hook |
| `PortForward.IsVisible` | tests/unit/widgets/vpn/test_port_forward_widget.py:64-85 | the emitted visibility: false for every non-Connected state whatever its port; for Connected, true iff the state carries a port |
| `PortForward.NotificationFor` | tests/unit/widgets/vpn/test_port_forward_widget.py:87-149 | a notification iff the state is Connected with a port different from the remembered one; titled "Port forwarding", described "Active port is p" |
| `PortForward.DistinctPortsDistinctNotifications` | tests/unit/widgets/vpn/test_port_forward_widget.py:105-113 | different ports give different notifications |
| `PortForward.NotificationNamesPort` | tests/unit/widgets/vpn/test_port_forward_widget.py:105-108 | the description is "Active port is " followed by digits whose value is the port |
| `PortForward.PortForwardWidget.constructor` | tests/unit/widgets/vpn/test_port_forward_widget.py:89-93 | the remembered port is the constructor argument; nothing emitted yet |
| `PortForward.PortForwardWidget.OnNewState` | tests/unit/widgets/vpn/test_port_forward_widget.py:64-149 | exactly one visibility value appended, true iff Connected with a port; the notifications grow by `NotificationFor` of the remembered port; after a Connected state with a port, that port is remembered; clipboard untouched |
| `PortForward.PortForwardWidget.SetPortForwardLabel` | tests/unit/widgets/vpn/test_port_forward_widget.py:157 | the label's port text is `str(port)` |
| `PortForward.PortForwardWidget.OnButtonPress` | tests/unit/widgets/vpn/test_port_forward_widget.py:151-162 | exactly one clipboard write of the port text with its UTF-8 byte length |
| `PortForward.PortForwardRevealer.constructor` | tests/unit/widgets/vpn/test_port_forward_widget.py:41-44 | wraps the given widget; no reveal call yet |
| `PortForward.PortForwardRevealer.OnUpdatePortForwardingVisibility` | tests/unit/widgets/vpn/test_port_forward_widget.py:37-48 | reveal-child set exactly once, to the value received |
| `PortForward.PortForwardRevealer.OnNewState` | tests/unit/widgets/vpn/test_port_forward_widget.py:50-60 | the child processes the state exactly once, unchanged (one visibility value, its notification); the child's label text and clipboard writes stay as they were |
| `PortForward.FirstPortNotifies` | tests/unit/widgets/vpn/test_port_forward_widget.py:87-108 | from no remembered port, one notification "Active port is p" |
| `PortForward.ChangedPortNotifiesAgain` | tests/unit/widgets/vpn/test_port_forward_widget.py:110-113 | a second, different port notifies again |
| `PortForward.RepeatedPortNotifiesOnce` | tests/unit/widgets/vpn/test_port_forward_widget.py:115-135 | the same port twice notifies once, visibility emitted twice |
| `PortForward.PortlessStateIsSilent` | tests/unit/widgets/vpn/test_port_forward_widget.py:137-149 | a Connected state without a port notifies nothing even with a remembered port; visibility false |
| `PortForward.CopyPortToClipboard` | tests/unit/widgets/vpn/test_port_forward_widget.py:151-162 | after labelling a port, one write of `str(port)` with length equal to its character count |
| `SearchResults.LoadString` | proton/vpn/app/gtk/widgets/vpn/search_results.py:121 | "" iff the load is None; otherwise `str(load)` followed by "%" |
| `SearchResults.ShownCount` | proton/vpn/app/gtk/widgets/vpn/search_results.py:120-131 | items shown: all of them iff there are at most MAX + 1, and exactly MAX + 1 = 101 when a section has more than MAX |
| `SearchResults.SectionRows` | proton/vpn/app/gtk/widgets/vpn/search_results.py:114-131 | a section adds rows iff its data is non-empty |
| `SearchResults.SectionRowsShape` | proton/vpn/app/gtk/widgets/vpn/search_results.py:114-131 | header "Name (n)" with the full count n; MAX + 1 items at most, in data order; "..." last iff more than MAX items |
| `SearchResults.SectionRowsParents` | proton/vpn/app/gtk/widgets/vpn/search_results.py:118-129 | every row grey; sensitive iff it is an item; items hang under the section's header |
| `SearchResults.LayoutWellFormed` | proton/vpn/app/gtk/widgets/vpn/search_results.py:105-131 | in the whole list every parent is an earlier root row, every row is grey, and exactly the items are sensitive |
| `SearchResults.SearchInputExists` | proton/vpn/app/gtk/widgets/vpn/search_results.py:191-200 | a match needs a non-empty text contained in the lowercased country or server name; with neither flag nothing matches |
| `SearchResults.Countries` | proton/vpn/app/gtk/widgets/vpn/search_results.py:153-164 | the set of `(entry_country_name, None)` over the matching servers; empty for no list |
| `SearchResults.UserTierAllowsAccessToServer` | proton/vpn/app/gtk/widgets/vpn/search_results.py:167-168 | a server is open iff its tier does not exceed the user's |
| `SearchResults.HigherTierKeepsAccess` | proton/vpn/app/gtk/widgets/vpn/search_results.py:166-180 | raising the user's tier never removes a server from the results |
| `SearchResults.MatchingServersSound` | proton/vpn/app/gtk/widgets/vpn/search_results.py:166-180 | every yielded entry is the name and load of a server with tier at most the user's whose lowercased name contains the text |
| `SearchResults.MatchingServersComplete` | proton/vpn/app/gtk/widgets/vpn/search_results.py:166-180 | every such server is yielded |
| `SearchResults.EmptySearchMatchesNothing` | proton/vpn/app/gtk/widgets/vpn/search_results.py:194-198 | an empty search text matches no server and no country |
| `SearchResults.Servers` | proton/vpn/app/gtk/widgets/vpn/search_results.py:166-180 | the drained generator equals the filtered list; `[(None, None)]` for an empty list; a TypeError for no list |
| `SearchResults.ListOfSet` | proton/vpn/app/gtk/widgets/vpn/search_results.py:114 | `list(set)`: each element exactly once, in some order |
| `SearchResults.SelectFunction` | proton/vpn/app/gtk/widgets/vpn/search_results.py:65-76 | selectable iff the row exists and is sensitive |
| `SearchResults.SelectableIffItem` | proton/vpn/app/gtk/widgets/vpn/search_results.py:65-76 | in a built list exactly the item rows are selectable; headers and "..." are not |
| `SearchResults.FilteredList.Update` | proton/vpn/app/gtk/widgets/vpn/search_results.py:103-133 | the model is rebuilt from scratch: Countries rows, then Servers rows, stopping at a producer that raised |
| `SearchResults.FilteredList.AppendSection` | proton/vpn/app/gtk/widgets/vpn/search_results.py:112-131 | the loop appends exactly the section's rows after the existing ones |
| `SearchResults.SearchResults.constructor` | proton/vpn/app/gtk/widgets/vpn/search_results.py:140-189 | empty list, no revealer yet |
| `SearchResults.SearchResults.OnSearchChanged` | proton/vpn/app/gtk/widgets/vpn/search_results.py:206-212 | stores the revealer, rebuilds the list for the lowercased text with some listing of the country set, reveals iff the text is non-empty; with no server list it raises and the revealer is untouched |
| `SearchResults.SearchResults.OnRowActivated` | proton/vpn/app/gtk/widgets/vpn/search_results.py:214-225 | on an existing row the revealer (always set once rows exist) is hidden and that row's name is emitted once; on a missing row nothing changes |
| `PreRelease.WithPreRelease` | scripts/update_version_with_pre_release.py:57-59 | same number of lines, all but the first unchanged; the first is its rstripped text, then the suffix, then a final "\n" |
| `PreRelease.WithPreReleaseShape` | scripts/update_version_with_pre_release.py:56-60 | same line count, lines after the first unchanged, first line = its text without trailing whitespace, then the suffix, then one "\n" |
| `PreRelease.RewriteTwice` | scripts/update_version_with_pre_release.py:57-59 | for a non-empty suffix not ending in whitespace, applying the rewrite twice appends the suffix twice, so the rewrite is not idempotent |
| `PreRelease.RewrittenFileReadsBack` | scripts/update_version_with_pre_release.py:35-60 | for a suffix without line breaks, reading the rewritten file back gives exactly the rewritten lines |
| `PreRelease.ReadFromFile` | scripts/update_version_with_pre_release.py:35-44 | the file's `readlines`; never None, empty for an empty file |
| `PreRelease.WriteToFile` | scripts/update_version_with_pre_release.py:47-51 | the file holds the lines concatenated in order, nothing added |
| `PreRelease.AppendPreReleaseToLatestVersion` | scripts/update_version_with_pre_release.py:54-60 | empty file: IndexError and the file is unchanged; otherwise the file is the concatenation of the rewritten lines |
| `PreRelease.RunAsScript` | scripts/update_version_with_pre_release.py:63-75 | rewrites iff a pre-release value (possibly "") was given and the file is non-empty; an empty file gives an IndexError and, like a missing value, leaves the file untouched |

## Left out

- GTK widget construction, columns, `TreeModelSort` ordering, `expand_all`, scrolled-window and revealer layout, and GObject signal wiring. The model keeps only row data and the emitted values. The widget's "update-visibility" signal is not connected to the revealer in the model.
- The real `sys`/`threading` hook globals, thread delivery and the concurrency around them. Hooks are values in an `Interpreter` object. Tracebacks are opaque numbers. Logging is a list of (level, message, category, event, exc_info) records.
- The `proton.session.exceptions` class hierarchy is not part of this model. Its "is-a" tests are independent flags.
- Exception instances that define their own truthiness. An instance is taken to be truthy iff it is present.
- ExceptionHandling.HandleException: a non-string truthy `error` attribute is not modelled. `error` is None or a string.
- `port_forward_widget.py` is not part of this model. Its window-focus gating of notifications (the tests make the window inactive so that notifications show) is not modelled.
- PortForward.PortForwardWidget.OnNewState: does not state the remembered port after a non-Connected state or a Connected state without a port. The tests fix neither.
- PortForward.PortForwardWidget.OnNewState: does not state what the label shows after a new state. The tests fix only the clipboard copy.
- Ports are non-negative integers.
- `str.lower` is modelled for ASCII letters only. Python's full Unicode case mapping is not.
- The search text `None` default of `update` is not modelled. Its only caller passes a string.
- `_search_input_exists` returns the text, a bool or None. The model keeps only its truthiness.
- UTF-8 decoding errors when reading versions.yml are not modelled. Newline translation on write (other than "\n" on Linux) is not modelled either.
- `argparse` parsing and file paths are not modelled. The script's argument is `Option<string>`.
