/**
 * Properties of the dispatcher's transition table (`Tracker.Journal`) and
 * of whole runs of host callbacks.
 */
module TrackerProperties {
  import opened Wrappers
  import opened Json
  import opened Tracker

  // ---------------------------------------------------------------------
  // One journal entry
  // ---------------------------------------------------------------------

  /** An entry without `event` is reported and changes nothing. */
  lemma MissingEventKey(loggedIn: bool, cmdr: Name, system: Name, station: Name, entry: Entry)
    requires "event" !in entry
    ensures Journal(loggedIn, cmdr, system, station, entry)
            == Reaction(loggedIn, [], Some("No event key in journal entry."))
  {
  }

  /** `StartUp` takes the session into scope from either state and announces it. */
  lemma StartUpAnnounces(loggedIn: bool, cmdr: Name, system: Name, station: Name, entry: Entry)
    requires "event" in entry && entry["event"] == JStr("StartUp")
    ensures Journal(loggedIn, cmdr, system, station, entry)
            == Reaction(true, [Logon(cmdr), System(cmdr, system), Station(cmdr, station)], None)
  {
  }

  /** `LoadGame` into a group whose upper-cased name is "ED RP" takes the session into scope and announces it. */
  lemma LoadGameJoinsGroup(loggedIn: bool, cmdr: Name, system: Name, station: Name, entry: Entry, group: string)
    requires "event" in entry && entry["event"] == JStr("LoadGame")
    requires "GameMode" in entry && entry["GameMode"] == JStr("Group")
    requires "Group" in entry && entry["Group"] == JStr(group)
    requires IsTrackedGroup(group)
    ensures Journal(loggedIn, cmdr, system, station, entry)
            == Reaction(true, [Logon(cmdr), System(cmdr, system), Station(cmdr, station)], None)
  {
  }

  /** Any other `LoadGame` drops the session out of scope and sends nothing. */
  lemma LoadGameLeavesGroup(loggedIn: bool, cmdr: Name, system: Name, station: Name, entry: Entry)
    requires GroupReadable(entry)
    requires "event" in entry && entry["event"] == JStr("LoadGame")
    requires !InGroupMode(entry) || !IsTrackedGroup(entry["Group"].s)
    ensures Journal(loggedIn, cmdr, system, station, entry) == Reaction(false, [], None)
  {
  }

  /** A group whose name only resembles "ED RP" counts as leaving: "ED-RP" is not accepted. */
  lemma LoadGameOtherGroup(loggedIn: bool, cmdr: Name, system: Name, station: Name, entry: Entry)
    requires "event" in entry && entry["event"] == JStr("LoadGame")
    requires "GameMode" in entry && entry["GameMode"] == JStr("Group")
    requires "Group" in entry && entry["Group"] == JStr("ED-RP")
    ensures Journal(loggedIn, cmdr, system, station, entry) == Reaction(false, [], None)
  {
    TrackedGroupSpellings("ED-RP");
  }

  /** The event is a session event: `StartUp` or `LoadGame`. */
  predicate IsSessionEntry(entry: Entry) {
    "event" in entry && Classify(entry["event"]) in {StartUp, LoadGame}
  }

  /** While out of scope, every other entry, `ShutDown` included, sends nothing. */
  lemma UntrackedGate(cmdr: Name, system: Name, station: Name, entry: Entry)
    requires "event" in entry && !IsSessionEntry(entry)
    ensures Journal(false, cmdr, system, station, entry) == Reaction(false, [], None)
  {
  }

  /** Only `StartUp` and `LoadGame` change the flag. */
  lemma OnlySessionEntriesChangeFlag(loggedIn: bool, cmdr: Name, system: Name, station: Name, entry: Entry)
    requires GroupReadable(entry)
    requires !IsSessionEntry(entry)
    ensures Journal(loggedIn, cmdr, system, station, entry).loggedIn == loggedIn
  {
  }

  /** While in scope, the markers each entry kind sends, in order. */
  lemma TrackedMarkers(cmdr: Name, system: Name, station: Name, entry: Entry)
    requires "event" in entry && !IsSessionEntry(entry)
    ensures var r := Journal(true, cmdr, system, station, entry);
            var kind := Classify(entry["event"]);
            r.loggedIn && r.error == None
            && (kind == ShutDown ==> r.calls == [Logoff(cmdr)])
            && (kind in {Docked, Location, Undocked} ==> r.calls == [System(cmdr, system), Station(cmdr, station)])
            && (kind in {FSDJump, Liftoff, Touchdown} ==> r.calls == [System(cmdr, system)])
            && (kind == Other ==> r.calls == [PingAttempt(NameValue(cmdr))])
  {
  }

  /** `ShutDown` sends the logoff but leaves the session in scope. */
  lemma ShutDownStaysTracked(cmdr: Name, system: Name, station: Name, entry: Entry)
    requires "event" in entry && entry["event"] == JStr("ShutDown")
    ensures Journal(true, cmdr, system, station, entry) == Reaction(true, [Logoff(cmdr)], None)
  {
  }

  /** A logoff is sent only for `ShutDown`, and only in scope. */
  lemma LogoffOnlyWhileTracked(loggedIn: bool, cmdr: Name, system: Name, station: Name, entry: Entry, c: Call)
    requires GroupReadable(entry)
    requires c in Journal(loggedIn, cmdr, system, station, entry).calls && c.Logoff?
    ensures loggedIn && "event" in entry && entry["event"] == JStr("ShutDown")
  {
    assert "event" in entry && !IsSessionEntry(entry);
    assert loggedIn;
    assert Classify(entry["event"]) == ShutDown;
  }

  /**
   * Apart from `LoadGame`, which also reads `GameMode` and `Group`, nothing
   * but the `event` value matters to the model: in particular `Undocked`
   * posts the ambient station whatever the entry's own `StationName` says.
   * (The model does not capture the log formatting of an `FSDJump`'s
   * `StarPos`, which raises before the system marker when `StarPos` is not
   * a sequence of at least three values.)
   */
  lemma OnlyEventValueMatters(loggedIn: bool, cmdr: Name, system: Name, station: Name, e1: Entry, e2: Entry)
    requires "event" in e1 && "event" in e2 && e1["event"] == e2["event"]
    requires Classify(e1["event"]) != LoadGame
    ensures Journal(loggedIn, cmdr, system, station, e1) == Journal(loggedIn, cmdr, system, station, e2)
  {
  }

  lemma UndockedPostsAmbientStation(cmdr: Name, system: Name, station: Name, entry: Entry, name: Json)
    requires "event" in entry && entry["event"] == JStr("Undocked")
    ensures Journal(true, cmdr, system, station, entry["StationName" := name]).calls
            == [System(cmdr, system), Station(cmdr, station)]
  {
    OnlyEventValueMatters(true, cmdr, system, station, entry["StationName" := name], entry);
  }

  // ---------------------------------------------------------------------
  // Runs of callbacks
  // ---------------------------------------------------------------------

  /** One host callback invocation. */
  datatype Input =
    | JournalInput(cmdr: Name, system: Name, station: Name, entry: Entry)
    | DashboardInput(pilot: Name)
    | ProfileInput(data: Entry)

  predicate Handleable(input: Input) {
    input.JournalInput? ==> GroupReadable(input.entry)
  }

  predicate AllHandleable(inputs: seq<Input>) {
    forall k :: 0 <= k < |inputs| ==> Handleable(inputs[k])
  }

  /** What one callback does, as its method on `Tracker` states it. */
  function React(loggedIn: bool, input: Input): Reaction
    requires Handleable(input)
  {
    match input
    case JournalInput(cmdr, system, station, entry) => Journal(loggedIn, cmdr, system, station, entry)
    case DashboardInput(pilot) => Reaction(loggedIn, [PingAttempt(NameValue(pilot))], None)
    case ProfileInput(data) => Reaction(loggedIn, ProfileCalls(data), None)
  }

  /** The flag after a run of callbacks and every call issued, oldest first. */
  datatype Trace = Trace(loggedIn: bool, calls: seq<Call>)

  function Run(loggedIn: bool, inputs: seq<Input>): Trace
    requires AllHandleable(inputs)
    decreases |inputs|
  {
    if inputs == [] then Trace(loggedIn, [])
    else
      var r := React(loggedIn, inputs[0]);
      var rest := Run(r.loggedIn, inputs[1..]);
      Trace(rest.loggedIn, r.calls + rest.calls)
  }

  lemma AllHandleableTail(a: seq<Input>)
    requires AllHandleable(a) && a != []
    ensures AllHandleable(a[1..]) && Handleable(a[0])
  {
    forall k | 0 <= k < |a[1..]| ensures Handleable(a[1..][k]) { assert a[1..][k] == a[k + 1]; }
  }

  predicate NoSessionEvents(inputs: seq<Input>) {
    forall k :: 0 <= k < |inputs| ==> !(inputs[k].JournalInput? && IsSessionEntry(inputs[k].entry))
  }

  /** Without `StartUp`/`LoadGame` the flag never changes, whatever else arrives. */
  lemma {:induction false} RunKeepsFlag(loggedIn: bool, inputs: seq<Input>)
    requires AllHandleable(inputs) && NoSessionEvents(inputs)
    ensures Run(loggedIn, inputs).loggedIn == loggedIn
    decreases |inputs|
  {
    if inputs != [] {
      assert AllHandleable(inputs[1..]) && NoSessionEvents(inputs[1..]) by {
        assert forall k :: 0 <= k < |inputs[1..]| ==> inputs[1..][k] == inputs[k + 1];
      }
      RunKeepsFlag(loggedIn, inputs[1..]);
    }
  }

  /**
   * Out of scope and without a session event, nothing but pings reaches the
   * service: the status tick and profile callbacks are not gated.
   */
  lemma {:induction false} UntrackedRunOnlyPings(inputs: seq<Input>)
    requires AllHandleable(inputs) && NoSessionEvents(inputs)
    ensures !Run(false, inputs).loggedIn
    ensures forall k :: 0 <= k < |Run(false, inputs).calls| ==> Run(false, inputs).calls[k].PingAttempt?
  {
    if inputs != [] {
      assert AllHandleable(inputs[1..]) && NoSessionEvents(inputs[1..]) by {
        assert forall k :: 0 <= k < |inputs[1..]| ==> inputs[1..][k] == inputs[k + 1];
      }
      UntrackedRunOnlyPings(inputs[1..]);
      var r := React(false, inputs[0]);
      assert !r.loggedIn;
      assert forall k :: 0 <= k < |r.calls| ==> r.calls[k].PingAttempt?;
    }
  }

  /** Every logon in a trace is followed at once by the system and the station of the same commander. */
  predicate LogonsAnnounced(calls: seq<Call>) {
    forall i :: 0 <= i < |calls| && calls[i].Logon? ==>
      i + 2 < |calls| && calls[i + 1].System? && calls[i + 1].cmdr == calls[i].cmdr
      && calls[i + 2].Station? && calls[i + 2].cmdr == calls[i].cmdr
  }

  lemma LogonsAnnouncedConcat(a: seq<Call>, b: seq<Call>)
    requires LogonsAnnounced(a) && LogonsAnnounced(b)
    ensures LogonsAnnounced(a + b)
  {
    forall i | 0 <= i < |a + b| && (a + b)[i].Logon?
      ensures i + 2 < |a + b| && (a + b)[i + 1].System? && (a + b)[i + 1].cmdr == (a + b)[i].cmdr
              && (a + b)[i + 2].Station? && (a + b)[i + 2].cmdr == (a + b)[i].cmdr
    {
      if i < |a| {
        assert a[i].Logon?;
      } else {
        assert b[i - |a|].Logon?;
      }
    }
  }

  lemma ReactLogonsAnnounced(loggedIn: bool, input: Input)
    requires Handleable(input)
    ensures LogonsAnnounced(React(loggedIn, input).calls)
  {
    var calls := React(loggedIn, input).calls;
    if calls != [] && calls[0].Logon? {
      assert calls == Announce(calls[0].cmdr, calls[1].system, calls[2].station);
    } else {
      assert forall i :: 0 <= i < |calls| ==> !calls[i].Logon?;
    }
  }

  lemma {:induction false} RunLogonsAnnounced(loggedIn: bool, inputs: seq<Input>)
    requires AllHandleable(inputs)
    ensures LogonsAnnounced(Run(loggedIn, inputs).calls)
    decreases |inputs|
  {
    if inputs != [] {
      AllHandleableTail(inputs);
      var r := React(loggedIn, inputs[0]);
      ReactLogonsAnnounced(loggedIn, inputs[0]);
      RunLogonsAnnounced(r.loggedIn, inputs[1..]);
      LogonsAnnouncedConcat(r.calls, Run(r.loggedIn, inputs[1..]).calls);
    }
  }

  /** A logoff followed by any location entry while out of scope sends nothing. */
  lemma UntrackedShutDownThenLocation(cmdr: Name, system: Name, station: Name, shutDown: Entry, location: Entry)
    requires "event" in shutDown && shutDown["event"] == JStr("ShutDown")
    requires "event" in location && Classify(location["event"]) in {Docked, FSDJump, Liftoff, Location, Touchdown, Undocked}
    ensures Run(false, [JournalInput(cmdr, system, station, shutDown), JournalInput(cmdr, system, station, location)])
            == Trace(false, [])
  {
    var first, second := JournalInput(cmdr, system, station, shutDown), JournalInput(cmdr, system, station, location);
    var inputs := [first, second];
    assert Handleable(first) && Handleable(second);
    assert React(false, first) == Reaction(false, [], None);
    assert React(false, second) == Reaction(false, [], None);
    assert inputs[1..] == [second];
    assert [second][1..] == [];
    assert Run(false, [second]) == Trace(false, []);
  }

  /**
   * A client of the tracker object: what the methods' contracts let a
   * caller conclude about a session that starts, jumps and shuts down.
   */
  method StartJumpShutDown(t: Tracker, cmdr: Name, system: Name, station: Name)
    modifies t
    ensures t.loggedIn
    ensures t.calls == old(t.calls)
                       + [Logon(cmdr), System(cmdr, system), Station(cmdr, station), System(cmdr, system), Logoff(cmdr)]
  {
    var e := t.JournalEntry(cmdr, system, station, map["event" := JStr("StartUp")]);
    assert e == None;
    e := t.JournalEntry(cmdr, system, station, map["event" := JStr("FSDJump")]);
    e := t.JournalEntry(cmdr, system, station, map["event" := JStr("ShutDown")]);
  }

  /** One step of a run: the first callback's reaction, then the rest from the flag it left. */
  lemma RunStep(loggedIn: bool, inputs: seq<Input>)
    requires AllHandleable(inputs) && inputs != []
    ensures AllHandleable(inputs[1..]) && Handleable(inputs[0])
    ensures var r := React(loggedIn, inputs[0]);
            var rest := Run(r.loggedIn, inputs[1..]);
            Run(loggedIn, inputs) == Trace(rest.loggedIn, r.calls + rest.calls)
  {
    AllHandleableTail(inputs);
  }

  /** Handing one callback to the tracker object does what `React` says. */
  method Deliver(t: Tracker, input: Input)
    requires Handleable(input)
    modifies t
    ensures var r := React(old(t.loggedIn), input);
            t.loggedIn == r.loggedIn && t.calls == old(t.calls) + r.calls
  {
    match input {
      case JournalInput(cmdr, system, station, entry) =>
        var _ := t.JournalEntry(cmdr, system, station, entry);
      case DashboardInput(pilot) =>
        var _ := t.DashboardEntry(pilot);
      case ProfileInput(data) =>
        var _ := t.CmdrData(data);
    }
  }

  /** Replaying a run on the tracker object does what `Run` says: the callbacks' contracts compose into it. */
  method Replay(t: Tracker, inputs: seq<Input>)
    requires AllHandleable(inputs)
    modifies t
    ensures var tr := Run(old(t.loggedIn), inputs);
            t.loggedIn == tr.loggedIn && t.calls == old(t.calls) + tr.calls
    decreases |inputs|
  {
    if inputs == [] {
      return;
    }
    ghost var start, before := t.loggedIn, t.calls;
    RunStep(start, inputs);
    ghost var r := React(start, inputs[0]);
    ghost var rest := Run(r.loggedIn, inputs[1..]);
    ghost var whole := Run(start, inputs);
    assert whole == Trace(rest.loggedIn, r.calls + rest.calls);
    Deliver(t, inputs[0]);
    assert t.loggedIn == r.loggedIn && t.calls == before + r.calls;
    Replay(t, inputs[1..]);
    assert t.loggedIn == rest.loggedIn && t.calls == before + r.calls + rest.calls;
    assert before + r.calls + rest.calls == before + whole.calls;
  }
}
