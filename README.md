# EDRP tracker plugin — Dafny model

A model of the two pieces of logic in the Elite Dangerous role-play tracker
plugin for the EDMC companion app:

* **The client for the tracking service** (`edrp.py`, module `Remote`): the
  low-level `post`/`get` wrappers, which replace every space of the path with
  `+` and turn any status other than 200 into `None`; the four event-marker
  paths `/logon/<cmdr>`, `/logoff/<cmdr>`, `/station/<station>/<cmdr>` and
  `/system/<system>/<cmdr>`; and the two queries `get_active` (a doubly
  encoded JSON list of records, from which every `cmdrName` is collected in
  order) and `get_active_count` (an integer message).
* **The journal-event dispatcher** (`load.py`, modules `Tracker` and
  `TrackerProperties`): a two-state machine over the flag `logged_in`. The
  shared client object becomes the class `Tracker.Tracker` with the field
  `loggedIn` and a ghost trace `calls` of the marker calls issued, in order.
  `JournalEntry`, `DashboardEntry` and `CmdrData` are the three host
  callbacks. `JournalEntry` is proved against the transition table
  `Tracker.Journal`; `DashboardEntry` and `CmdrData` are proved against
  their own contracts and `Tracker.ProfileCalls`. `TrackerProperties` proves
  the table's rows and facts about whole runs of callbacks (`Run`), and
  `TrackerProperties.Replay` shows that driving the object through a run
  does what `Run` says.

The HTTP transport is a function parameter `server` from the requested path
to the reply. `json.loads` and Python's `int()` are the function parameters
`loads` and `toInt`; they return `None` where the source catches
`JSONDecodeError` or `ValueError`. A decoded JSON value is `Json.Json`, and
Python's truthiness and key test on it are `Json.Truthy` and `Json.HasKey`.

Where the plugin's apparent intent and its code differ, the model follows
the code:

* The code has no rate limit. `post_ping` is called at load.py:233, 247 and
  261, but `edrp.py` does not define it. The model records a `PingAttempt` and returns an arbitrary
  boolean, which the source only uses to decide whether to log.
* `ShutDown` is tested only after the `logged_in` gate (load.py:141-156).
  A logoff is therefore sent only while the session is tracked, and the
  flag stays `true` afterwards (`ShutDownStaysTracked`).
* `load.py` imports a class `EDRP` that has `logged_in` and `post_ping`.
  `edrp.py` has only module-level functions, so the flag lives in
  the model's own `Tracker` class.
* The group test is `group.upper() == 'ED RP'`: letter case is ignored
  (`TrackedGroupSpellings`).

Consequences of the code that the model makes explicit:

* The host passes `None` for a system or station that is not yet known, and
  `str.format` renders that as the text `None`. A station marker sent without
  a known station therefore posts `/station/None/<cmdr>`
  (`UnknownStationIsPostedAsNone`).
* The rewrite is not injective: `cmdr one` and `cmdr+one` give the same path
  (`RewriteNotInjective`).

## Model

| member | source | states |
|---|---|---|
| `Json.Truthy` | edrp.py:93 | definition: Python's truthiness of a decoded JSON value, as the `not response_json` tests use it: null, `false`, `0`, the empty string, the empty list and the empty object are falsy |
| `Json.HasKey` | edrp.py:110 | definition: the `'<key>' in <value>` tests on a decoded value (also edrp.py:93 and 124, load.py:96 and 259): the value is an object and has the key |
| `Json.HasKeyIsTruthy` | edrp.py:93 | an object that has the key is truthy, so `not response_json` adds nothing once `message` is present |
| `Remote.Rewrite` | edrp.py:25 | the rewrite keeps the length, turns each space into `+` and leaves every other character unchanged |
| `Remote.RewriteHasNoSpace` | edrp.py:25 | no space is left in a rewritten path |
| `Remote.RewriteIdempotent` | edrp.py:25 | rewriting twice gives the same path as rewriting once |
| `Remote.RewriteSpaceFree` | edrp.py:39 | a path without spaces is requested exactly as written |
| `Remote.RewriteConcat` | edrp.py:25 | the rewrite of a concatenation is the concatenation of the rewrites |
| `Remote.RewriteNotInjective` | edrp.py:25 | two different commander names can give the same rewritten path |
| `Remote.Post` | edrp.py:18-30 | `post` gives `None` exactly when the status for the rewritten path is not 200; otherwise it gives the body text |
| `Remote.Get` | edrp.py:32-44 | `get` gives `None` exactly when the status for the rewritten path is not 200; otherwise it gives the decoded body |
| `Remote.LogonRequest` | edrp.py:48-54 | `post_logon` requests `/logon/` followed by the rewritten commander |
| `Remote.LogoffRequest` | edrp.py:57-63 | `post_logoff` requests `/logoff/` followed by the rewritten commander |
| `Remote.StationRequest` | edrp.py:66-73 | `post_station` requests `/station/<station>/<cmdr>`, with the station first and both names rewritten |
| `Remote.SystemRequest` | edrp.py:76-83 | `post_system` requests `/system/<system>/<cmdr>`, with the system first and both names rewritten |
| `Remote.StationRequestExample` | edrp.py:73 | `("cmdr one", "station two")` gives `/station/station+two/cmdr+one` |
| `Remote.StationRequestSegments` | edrp.py:73 | if neither name contains `/`, the station path splits into exactly the verb, the rewritten station and the rewritten commander |
| `Remote.SystemRequestSegments` | edrp.py:83 | the same holds for the system path |
| `Remote.LogonLogoffRequestSegments` | edrp.py:54-63 | if the commander contains no `/`, the logon and logoff paths split into the verb and the rewritten commander |
| `Remote.CmdrNames` | edrp.py:108-114 | the collected names are never more than the list elements |
| `Remote.CmdrNamesConcat` | edrp.py:109-113 | collecting over two consecutive parts of the list gives the first part's names, then the second part's |
| `Remote.CmdrNamesMembers` | edrp.py:110-113 | a value is collected exactly when some element has it as its `cmdrName` |
| `Remote.CmdrNamesAllNamed` | edrp.py:113 | if every element has `cmdrName`, there is one name per element, in the same order |
| `Remote.CmdrNamesNoneNamed` | edrp.py:110-112 | elements without `cmdrName` are skipped, so if no element has one the result is empty |
| `Remote.CmdrNamesExample` | edrp.py:108-114 | `[{"cmdrName": "Jameson"}, {"bad": 1}]` gives `["Jameson"]` |
| `Remote.QueryPathsSentAsIs` | edrp.py:92 | `/active` and `/active-count` are requested as written, and their replies are gated on status 200 |
| `Remote.GetActive` | edrp.py:86-114 | `None` exactly when: the request fails; the body is falsy; it lacks `message`; decoding `message` fails; or the decoded value is not a list. Otherwise the `cmdrName`s of the list, in order, and no more names than elements |
| `Remote.GetActiveCount` | edrp.py:117-134 | `None` exactly when: the request fails; the body is falsy; it lacks `message`; or integer conversion fails. Otherwise the converted integer |
| `Remote.GetActiveCountExamples` | edrp.py:123-134 | a message `"42"` gives 42, and a message `"abc"` gives `None` |
| `Remote.GetActiveCountTransportFailure` | edrp.py:123-125 | a status other than 200 gives `None`, whatever the integer conversion would do |
| `Tracker.CallPath` | edrp.py:48-83 | every marker call has a path and that path has no space; the ping has no path in this model |
| `Tracker.UnknownStationIsPostedAsNone` | load.py:117 | a station marker for a station that is not known posts `/station/None/<cmdr>` |
| `Tracker.Classify` | load.py:104-214 | definition: the chain of `entry['event'] == '<Kind>'` tests, in the handler's order; any other value is `Other` |
| `Tracker.ClassifyKindName` | load.py:104-214 | each known event kind is recognised from its own name and from no other value |
| `Tracker.IsTrackedGroup` | load.py:131 | definition: the group test `group.upper() == 'ED RP'` |
| `Tracker.TrackedGroupSpellings` | load.py:131 | the group test accepts exactly the five-character spellings of `ED RP`, in any letter case |
| `Tracker.Journal` | load.py:93-236 | definition: the transition table of `journal_entry` from the flag before the call: the new flag, the marker calls in order and the error returned; its rows are the `TrackerProperties` lemmas |
| `Tracker.ProfileCalls` | load.py:259-263 | a profile gives at most one ping; it gives one exactly when `commander` and its `name` are present, and that ping carries the name |
| `Tracker.Tracker.constructor` | load.py:18 | a new tracker is not logged in and has issued no calls |
| `Tracker.Tracker.PostLogon` | load.py:115 | `post_logon` appends one logon call to the trace |
| `Tracker.Tracker.PostLogoff` | load.py:155 | `post_logoff` appends one logoff call to the trace |
| `Tracker.Tracker.PostSystem` | load.py:116 | `post_system` appends one system call to the trace |
| `Tracker.Tracker.PostStation` | load.py:117 | `post_station` appends one station call to the trace |
| `Tracker.Tracker.PostPing` | load.py:233 | `post_ping` appends one ping attempt; its boolean result is left unconstrained |
| `Tracker.Tracker.JournalEntry` | load.py:82-236 | the new flag, the calls appended and the error returned are the transition table's (`Tracker.Journal`) for the old flag |
| `Tracker.Tracker.PostLocation` | load.py:160-234 | while tracked, each location kind posts its system and/or station markers in order, and any other kind pings |
| `Tracker.Tracker.DashboardEntry` | load.py:239-249 | a status tick appends exactly one ping, tracked or not, returns `None` and leaves the flag alone |
| `Tracker.Tracker.CmdrData` | load.py:252-263 | a profile refresh appends the ping of `ProfileCalls`, returns `None` and leaves the flag alone |
| `TrackerProperties.MissingEventKey` | load.py:96-99 | an entry without `event` returns the error `No event key in journal entry.`, keeps the flag and sends nothing |
| `TrackerProperties.StartUpAnnounces` | load.py:104-118 | `StartUp` from either state sets the flag and sends exactly logon, system, station in that order |
| `TrackerProperties.LoadGameJoinsGroup` | load.py:120-135 | `LoadGame` in `Group` mode with any group whose upper-cased name is `ED RP` sets the flag and sends logon, system, station |
| `TrackerProperties.LoadGameLeavesGroup` | load.py:131-138 | every other `LoadGame` clears the flag and sends nothing |
| `TrackerProperties.LoadGameOtherGroup` | load.py:131-137 | a `LoadGame` into a group named `ED-RP` clears the flag |
| `TrackerProperties.UntrackedGate` | load.py:140-142 | while not tracked, every event other than `StartUp`/`LoadGame` (`ShutDown` included) sends nothing and returns `None` |
| `TrackerProperties.OnlySessionEntriesChangeFlag` | load.py:106-137 | only `StartUp` and `LoadGame` change the flag |
| `TrackerProperties.TrackedMarkers` | load.py:149-234 | while tracked: `ShutDown` sends logoff; `Docked`/`Location`/`Undocked` send system then station; `FSDJump`/`Liftoff`/`Touchdown` send system; any other kind pings |
| `TrackerProperties.ShutDownStaysTracked` | load.py:149-156 | a tracked `ShutDown` sends the logoff and leaves the flag set |
| `TrackerProperties.LogoffOnlyWhileTracked` | load.py:141-155 | a logoff is sent only for `ShutDown`, and only while tracked |
| `TrackerProperties.OnlyEventValueMatters` | load.py:104-234 | apart from `LoadGame`, two entries with the same `event` value get the same reaction (the model does not raise on a malformed `StarPos`; see "Left out") |
| `TrackerProperties.UndockedPostsAmbientStation` | load.py:214-230 | `Undocked` posts the ambient station even when the entry has its own `StationName` |
| `TrackerProperties.RunKeepsFlag` | load.py:106-137 | without `StartUp`/`LoadGame`, no run of callbacks changes the flag |
| `TrackerProperties.UntrackedRunOnlyPings` | load.py:141-142 | starting untracked, with no session event, a run sends nothing but pings from the ungated status and profile callbacks |
| `TrackerProperties.RunLogonsAnnounced` | load.py:115-117 | in any run, every logon is followed at once by the system and station markers of the same commander |
| `TrackerProperties.UntrackedShutDownThenLocation` | load.py:141-156 | while untracked, a `ShutDown` followed by a location event sends nothing |
| `TrackerProperties.RunStep` | load.py:82-263 | proof step for `Replay`: `Run` unfolded once, the first callback's reaction followed by the run of the rest |
| `TrackerProperties.Deliver` | load.py:82-263 | handing one callback to the tracker object sets the flag and appends the calls that `React` gives for the old flag |
| `TrackerProperties.Replay` | load.py:82-263 | driving the tracker object through a sequence of callbacks ends with the flag of `Run` and appends exactly the calls of `Run` |
| `TrackerProperties.StartJumpShutDown` | load.py:104-187 | a client of the tracker: `StartUp`, `FSDJump`, `ShutDown` leave it tracked, with logon, system, station, system, logoff in the trace |

## Left out

- HTTP transport (`requests.post`/`requests.get`, `EDRP_API_URL`): a parameter from the requested path to the reply, because it is a network call.
- `r.json()` raising on a body that is not JSON: the reply carries an already decoded body.
- `post_ping` and any throttle on it: `edrp.py` does not define it. The model records the attempt and leaves the result arbitrary.
- `Tracker.Tracker.PostLogon`, `PostLogoff`, `PostSystem`, `PostStation`: record the call only. `Tracker.CallPath` gives the path each call would post, but the HTTP outcome, which the caller discards, is not modelled.
- Logging (`log_msg`, `print`, `LOG_FORMAT`, `datetime.utcnow()`): output only; nothing depends on it.
- An `FSDJump` whose `StarPos` is present but is a list of fewer than three values or a value that cannot be iterated: the log formatting at load.py:171-179 raises before `post_system`; the model always posts the system.
- `Tracker.Tracker.constructor`: the `EDRP` class that load.py:18 instantiates is not part of this model. The model starts `loggedIn` at `false` (the untracked state) and the trace empty, and takes `EDRP`'s `post_*` methods to send the paths of the module-level functions of the same names in edrp.py (`Tracker.CallPath`, `Tracker.UnknownStationIsPostedAsNone`).
- Plugin lifecycle hooks `plugin_start`, `plugin_stop`, `prefs_cmdr_changed`, `prefs_changed`: they only log.
- The `is_beta` and `state` parameters of the callbacks: the source never reads them.
- `Tracker.Tracker.JournalEntry` requires `GroupReadable`: a `LoadGame` in `Group` mode must carry a string `Group`. Otherwise Python raises an `AttributeError` from `.upper()`.
- `Tracker.TrackedGroupSpellings`: case mapping covers ASCII letters only; Python's full Unicode `str.upper` is not modelled.
- A top-level response, a list element or a `commander` value that is not a JSON object is treated as having no keys. In Python, `in` on a string or list is a substring or membership test, and indexing it would then raise; `in` on JSON null or a number raises `TypeError`.
- `json.loads` on a `message` that is not a string raises `TypeError` in Python. The abstract `loads` is total here.
- `int()` on a value for which it raises `TypeError` rather than `ValueError`: the abstract `toInt` returns `None` for every failure.
- JSON floating-point numbers: `Json.Json` has integers only.
