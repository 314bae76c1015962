/**
 * The journal-event dispatcher of the plugin (load.py): the session flag
 * `logged_in`, the three host callbacks `journal_entry`, `dashboard_entry`
 * and `cmdr_data`, and the ordered event-marker calls they issue.
 *
 * The shared client object `edrp` becomes the class `Tracker`: its
 * `loggedIn` field is the flag, and the ghost field `calls` records every
 * marker call in the order it is issued. What each call sends over the
 * wire is given by `CallPath`, in terms of the path builders of `Remote`.
 */
module Tracker {
  import opened Wrappers
  import opened Json
  import Remote

  /** A name the host passes to a callback: `None` while it is not yet known. */
  type Name = Option<string>

  /** How `str.format` renders a name in a path: Python prints `None` as the text "None". */
  function Show(n: Name): string {
    match n
    case None => "None"
    case Some(s) => s
  }

  /** The name as the value handed on to the ping call. */
  function NameValue(n: Name): Json {
    match n
    case None => JNull
    case Some(s) => JStr(s)
  }

  /** One event-marker call on the tracking service. */
  datatype Call =
    | Logon(cmdr: Name)
    | Logoff(cmdr: Name)
    | System(cmdr: Name, system: Name)
    | Station(cmdr: Name, station: Name)
    | PingAttempt(who: Json)

  /** The path a recorded call posts; the ping's request is not part of this model. */
  function CallPath(c: Call): (path: Option<string>)
    ensures path.None? <==> c.PingAttempt?
    ensures path.Some? ==> ' ' !in path.value
  {
    match c
    case Logon(cmdr) =>
      Remote.RewriteHasNoSpace("/logon/" + Show(cmdr));
      Some(Remote.LogonRequest(Show(cmdr)))
    case Logoff(cmdr) =>
      Remote.RewriteHasNoSpace("/logoff/" + Show(cmdr));
      Some(Remote.LogoffRequest(Show(cmdr)))
    case System(cmdr, system) =>
      Remote.RewriteHasNoSpace("/system/" + Show(system) + "/" + Show(cmdr));
      Some(Remote.SystemRequest(Show(cmdr), Show(system)))
    case Station(cmdr, station) =>
      Remote.RewriteHasNoSpace("/station/" + Show(station) + "/" + Show(cmdr));
      Some(Remote.StationRequest(Show(cmdr), Show(station)))
    case PingAttempt(_) => None
  }

  /** A station marker issued while the host knows no station names the station "None". */
  lemma UnknownStationIsPostedAsNone(cmdr: Name)
    ensures CallPath(Station(cmdr, None)) == Some("/station/None/" + Remote.Rewrite(Show(cmdr)))
  {
    Remote.RewriteSpaceFree("None");
    assert "/station/" + "None" + "/" == "/station/None/";
  }

  // ---------------------------------------------------------------------
  // Journal entries and their kinds
  // ---------------------------------------------------------------------

  /** A journal entry: the decoded JSON dictionary the host delivers. */
  type Entry = map<string, Json>

  /** The event kinds the dispatcher tells apart; every other value of `event` is `Other`. */
  datatype EventKind =
    | StartUp | LoadGame | ShutDown | Docked | FSDJump | Liftoff | Location | Touchdown | Undocked | Other

  /** The journal's name of each known kind. */
  function KindName(k: EventKind): string
    requires k != Other
  {
    match k
    case StartUp => "StartUp"
    case LoadGame => "LoadGame"
    case ShutDown => "ShutDown"
    case Docked => "Docked"
    case FSDJump => "FSDJump"
    case Liftoff => "Liftoff"
    case Location => "Location"
    case Touchdown => "Touchdown"
    case Undocked => "Undocked"
  }

  /** The comparisons `entry['event'] == '<Kind>'`, in the order the handler makes them. */
  function Classify(event: Json): EventKind {
    if event == JStr("StartUp") then StartUp
    else if event == JStr("LoadGame") then LoadGame
    else if event == JStr("ShutDown") then ShutDown
    else if event == JStr("Docked") then Docked
    else if event == JStr("FSDJump") then FSDJump
    else if event == JStr("Liftoff") then Liftoff
    else if event == JStr("Location") then Location
    else if event == JStr("Touchdown") then Touchdown
    else if event == JStr("Undocked") then Undocked
    else Other
  }

  /** Each known kind is recognised from its own name, and only from it. */
  lemma ClassifyKindName(k: EventKind, event: Json)
    requires k != Other
    ensures Classify(JStr(KindName(k))) == k
    ensures Classify(event) == k <==> event == JStr(KindName(k))
  {
  }

  /** Python's `str.upper` for one character, restricted to the ASCII letters. */
  function UpperChar(c: char): char {
    if 'a' <= c <= 'z' then (c as int - 32) as char else c
  }

  function Upper(s: string): (r: string)
    ensures |r| == |s|
    ensures forall i :: 0 <= i < |s| ==> r[i] == UpperChar(s[i])
  {
    seq(|s|, i requires 0 <= i < |s| => UpperChar(s[i]))
  }

  /** The group test `group.upper() == 'ED RP'`. */
  predicate IsTrackedGroup(group: string) {
    Upper(group) == "ED RP"
  }

  /** The group test accepts exactly the five-character spellings of "ED RP" in either case. */
  lemma TrackedGroupSpellings(group: string)
    ensures IsTrackedGroup(group) <==>
            |group| == 5 && group[0] in "Ee" && group[1] in "Dd" && group[2] == ' '
            && group[3] in "Rr" && group[4] in "Pp"
  {
    if |group| == 5 {
      var u := Upper(group);
      assert u == "ED RP" <==> u[0] == 'E' && u[1] == 'D' && u[2] == ' ' && u[3] == 'R' && u[4] == 'P';
    }
  }

  /** `entry.get('GameMode', None) == 'Group'`. */
  predicate InGroupMode(entry: Entry) {
    "GameMode" in entry && entry["GameMode"] == JStr("Group")
  }

  /**
   * The entries the handler can process without raising: a `LoadGame` in
   * group mode must carry a string `Group`, or `.upper()` fails.
   */
  predicate GroupReadable(entry: Entry) {
    ("event" in entry && Classify(entry["event"]) == LoadGame && InGroupMode(entry))
      ==> ("Group" in entry && entry["Group"].JStr?)
  }

  /** A `LoadGame` entry that joins the tracked role-play group. */
  predicate JoinsTrackedGroup(entry: Entry)
    requires GroupReadable(entry)
    requires "event" in entry && Classify(entry["event"]) == LoadGame
  {
    InGroupMode(entry) && IsTrackedGroup(entry["Group"].s)
  }

  // ---------------------------------------------------------------------
  // The transition table
  // ---------------------------------------------------------------------

  const NoEventKey := "No event key in journal entry."

  /** What one callback does: the new session flag, the calls issued in order, and the error returned. */
  datatype Reaction = Reaction(loggedIn: bool, calls: seq<Call>, error: Option<string>)

  /** The three markers sent when a session is taken into scope. */
  function Announce(cmdr: Name, system: Name, station: Name): seq<Call> {
    [Logon(cmdr), System(cmdr, system), Station(cmdr, station)]
  }

  /** The calls for an event kind other than `StartUp`/`LoadGame` while tracked. */
  function TrackedCalls(kind: EventKind, cmdr: Name, system: Name, station: Name): seq<Call> {
    match kind
    case ShutDown => [Logoff(cmdr)]
    case Docked | Location | Undocked => [System(cmdr, system), Station(cmdr, station)]
    case FSDJump | Liftoff | Touchdown => [System(cmdr, system)]
    case _ => [PingAttempt(NameValue(cmdr))]
  }

  /** `journal_entry(cmdr, is_beta, system, station, entry, state)` given the flag before the call. */
  function Journal(loggedIn: bool, cmdr: Name, system: Name, station: Name, entry: Entry): Reaction
    requires GroupReadable(entry)
  {
    if "event" !in entry then Reaction(loggedIn, [], Some(NoEventKey))
    else
      var kind := Classify(entry["event"]);
      if kind == StartUp then Reaction(true, Announce(cmdr, system, station), None)
      else if kind == LoadGame then
        if JoinsTrackedGroup(entry) then Reaction(true, Announce(cmdr, system, station), None)
        else Reaction(false, [], None)
      else if !loggedIn then Reaction(loggedIn, [], None)
      else Reaction(loggedIn, TrackedCalls(kind, cmdr, system, station), None)
  }

  /** `cmdr_data(data, is_beta)`: a ping for `data['commander']['name']` when both keys exist. */
  function ProfileCalls(data: Entry): (calls: seq<Call>)
    ensures |calls| <= 1
    ensures calls != [] <==> "commander" in data && HasKey(data["commander"], "name")
    ensures calls != [] ==> calls[0] == PingAttempt(Field(data["commander"], "name"))
  {
    if "commander" in data && HasKey(data["commander"], "name") then
      [PingAttempt(Field(data["commander"], "name"))]
    else []
  }

  // ---------------------------------------------------------------------
  // The tracker object
  // ---------------------------------------------------------------------

  class Tracker {
    /** `edrp.logged_in`: whether the current session is in the tracked group. */
    var loggedIn: bool
    /** Every event-marker call issued so far, oldest first. */
    ghost var calls: seq<Call>

    constructor ()
      ensures !loggedIn && calls == []
    {
      loggedIn := false;
      calls := [];
    }

    method PostLogon(cmdr: Name)
      modifies this`calls
      ensures calls == old(calls) + [Logon(cmdr)]
    {
      calls := calls + [Logon(cmdr)];
    }

    method PostLogoff(cmdr: Name)
      modifies this`calls
      ensures calls == old(calls) + [Logoff(cmdr)]
    {
      calls := calls + [Logoff(cmdr)];
    }

    method PostSystem(cmdr: Name, system: Name)
      modifies this`calls
      ensures calls == old(calls) + [System(cmdr, system)]
    {
      calls := calls + [System(cmdr, system)];
    }

    method PostStation(cmdr: Name, station: Name)
      modifies this`calls
      ensures calls == old(calls) + [Station(cmdr, station)]
    {
      calls := calls + [Station(cmdr, station)];
    }

    /** `edrp.post_ping(cmdr)`: recorded as an attempt; whether it went out is unknown here. */
    method PostPing(cmdr: Json) returns (sent: bool)
      modifies this`calls
      ensures calls == old(calls) + [PingAttempt(cmdr)]
    {
      calls := calls + [PingAttempt(cmdr)];
      sent :| true;
    }

    /** `journal_entry`: classify the entry, update the flag and issue the markers. */
    method JournalEntry(cmdr: Name, system: Name, station: Name, entry: Entry) returns (error: Option<string>)
      requires GroupReadable(entry)
      modifies this
      ensures var r := Journal(old(loggedIn), cmdr, system, station, entry);
              loggedIn == r.loggedIn && calls == old(calls) + r.calls && error == r.error
    {
      ghost var r := Journal(loggedIn, cmdr, system, station, entry);
      error := None;
      if "event" !in entry {
        error := Some(NoEventKey);
        return error;
      }
      var kind := Classify(entry["event"]);
      if kind == StartUp {
        assert r == Reaction(true, Announce(cmdr, system, station), None);
        loggedIn := true;
        PostLogon(cmdr);
        PostSystem(cmdr, system);
        PostStation(cmdr, station);
        return error;
      }
      if kind == LoadGame {
        if InGroupMode(entry) && IsTrackedGroup(entry["Group"].s) {
          assert r == Reaction(true, Announce(cmdr, system, station), None);
          loggedIn := true;
          PostLogon(cmdr);
          PostSystem(cmdr, system);
          PostStation(cmdr, station);
        } else {
          assert r == Reaction(false, [], None);
          loggedIn := false;
        }
        return error;
      }
      if !loggedIn {
        assert r == Reaction(false, [], None);
        return error;
      }
      assert r == Reaction(true, TrackedCalls(kind, cmdr, system, station), None);
      if kind == ShutDown {
        PostLogoff(cmdr);
        return error;
      }
      PostLocation(kind, cmdr, system, station);
      return error;
    }

    /** The location events of `journal_entry` (and the ping for every other kind), while in scope. */
    method PostLocation(kind: EventKind, cmdr: Name, system: Name, station: Name)
      requires kind !in {StartUp, LoadGame, ShutDown}
      modifies this`calls
      ensures calls == old(calls) + TrackedCalls(kind, cmdr, system, station)
    {
      if kind == Docked {
        PostSystem(cmdr, system);
        PostStation(cmdr, station);
      } else if kind == FSDJump {
        PostSystem(cmdr, system);
      } else if kind == Liftoff {
        PostSystem(cmdr, system);
      } else if kind == Location {
        PostSystem(cmdr, system);
        PostStation(cmdr, station);
      } else if kind == Touchdown {
        PostSystem(cmdr, system);
      } else if kind == Undocked {
        PostSystem(cmdr, system);
        PostStation(cmdr, station);
      } else {
        var _ := PostPing(NameValue(cmdr));
      }
    }

    /** `dashboard_entry`: every status tick attempts a ping, tracked or not. */
    method DashboardEntry(cmdr: Name) returns (error: Option<string>)
      modifies this
      ensures loggedIn == old(loggedIn)
      ensures calls == old(calls) + [PingAttempt(NameValue(cmdr))]
      ensures error == None
    {
      var _ := PostPing(NameValue(cmdr));
      return None;
    }

    /** `cmdr_data`: a ping for the commander named in the profile, if it names one. */
    method CmdrData(data: Entry) returns (error: Option<string>)
      modifies this
      ensures loggedIn == old(loggedIn)
      ensures calls == old(calls) + ProfileCalls(data)
      ensures error == None
    {
      if "commander" in data && HasKey(data["commander"], "name") {
        var cmdr := Field(data["commander"], "name");
        var _ := PostPing(cmdr);
      }
      return None;
    }
  }
}
