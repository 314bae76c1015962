/**
 * The tracking service client (edrp.py): the low-level `post`/`get`
 * wrappers, which replace every space in the path with '+' before handing
 * it to the HTTP transport, the path builders for the four event markers,
 * and the two read queries `get_active` and `get_active_count`.
 *
 * The HTTP transport is a parameter `server` that maps the path actually
 * requested to the reply (status code and body); `json.loads` and Python's
 * `int()` are the partial functions `loads` and `toInt`, whose `None`
 * stands for the exception the source catches.
 */
module Remote {
  import opened Wrappers
  import opened Json

  /** What the transport answers to a POST: the status code and the body text. */
  datatype PostReply = PostReply(status: int, text: string)

  /** What the transport answers to a GET: the status code and the decoded body (`r.json()`). */
  datatype GetReply = GetReply(status: int, body: Json)

  // ---------------------------------------------------------------------
  // Space rewriting (`payload.replace(' ', '+')`)
  // ---------------------------------------------------------------------

  function PlusForSpace(c: char): char {
    if c == ' ' then '+' else c
  }

  /** The path rewrite applied by both `post` and `get`. */
  function Rewrite(s: string): (r: string)
    ensures |r| == |s|
    ensures forall i :: 0 <= i < |s| ==> r[i] == (if s[i] == ' ' then '+' else s[i])
  {
    seq(|s|, i requires 0 <= i < |s| => PlusForSpace(s[i]))
  }

  /** No space survives the rewrite. */
  lemma RewriteHasNoSpace(s: string)
    ensures ' ' !in Rewrite(s)
  {
    assert forall i :: 0 <= i < |s| ==> Rewrite(s)[i] != ' ';
  }

  /** Rewriting twice is rewriting once. */
  lemma RewriteIdempotent(s: string)
    ensures Rewrite(Rewrite(s)) == Rewrite(s)
  {
    var r := Rewrite(s);
    assert forall i :: 0 <= i < |r| ==> Rewrite(r)[i] == r[i];
  }

  /** A path without spaces is sent as it is. */
  lemma RewriteSpaceFree(s: string)
    requires ' ' !in s
    ensures Rewrite(s) == s
  {
    assert forall i :: 0 <= i < |s| ==> Rewrite(s)[i] == s[i];
  }

  /** The rewrite works character by character, so it distributes over concatenation. */
  lemma RewriteConcat(a: string, b: string)
    ensures Rewrite(a + b) == Rewrite(a) + Rewrite(b)
  {
    assert forall i :: 0 <= i < |a + b| ==> Rewrite(a + b)[i] == (Rewrite(a) + Rewrite(b))[i];
  }

  /** The rewrite loses information: a name with a space and the same name with '+' are sent identically. */
  lemma RewriteNotInjective()
    ensures Rewrite("cmdr one") == Rewrite("cmdr+one")
    ensures "cmdr one" != "cmdr+one"
  {
    assert Rewrite("cmdr one") == "cmdr+one";
    assert Rewrite("cmdr+one") == "cmdr+one";
  }

  // ---------------------------------------------------------------------
  // Low-level requests (`post`, `get`)
  // ---------------------------------------------------------------------

  /** `post(payload)`: the body text when the service answers 200, otherwise `None`. */
  function Post(payload: string, server: string -> PostReply): (r: Option<string>)
    ensures r.Some? <==> server(Rewrite(payload)).status == 200
    ensures r.Some? ==> r.value == server(Rewrite(payload)).text
  {
    var reply := server(Rewrite(payload));
    if reply.status != 200 then None else Some(reply.text)
  }

  /** `get(payload)`: the decoded body when the service answers 200, otherwise `None`. */
  function Get(payload: string, server: string -> GetReply): (r: Option<Json>)
    ensures r.Some? <==> server(Rewrite(payload)).status == 200
    ensures r.Some? ==> r.value == server(Rewrite(payload)).body
  {
    var reply := server(Rewrite(payload));
    if reply.status != 200 then None else Some(reply.body)
  }

  // ---------------------------------------------------------------------
  // Event markers: the path each `post_*` function sends
  // ---------------------------------------------------------------------

  /** Rewriting a path whose fixed prefix has no spaces rewrites only the argument. */
  lemma RewritePrefixed(prefix: string, cmdr: string)
    requires ' ' !in prefix
    ensures Rewrite(prefix + cmdr) == prefix + Rewrite(cmdr)
  {
    RewriteConcat(prefix, cmdr);
    RewriteSpaceFree(prefix);
  }

  /** The same for a prefix followed by two arguments separated by '/'. */
  lemma RewritePrefixedPair(prefix: string, param: string, cmdr: string)
    requires ' ' !in prefix
    ensures Rewrite(prefix + param + "/" + cmdr) == prefix + Rewrite(param) + "/" + Rewrite(cmdr)
  {
    RewriteConcat(prefix + param, "/" + cmdr);
    RewriteConcat(prefix, param);
    RewriteConcat("/", cmdr);
    RewriteSpaceFree(prefix);
    RewriteSpaceFree("/");
  }

  /** The path `post_logon(cmdr)` requests: `/logon/<cmdr>` with spaces rewritten. */
  function LogonRequest(cmdr: string): (path: string)
    ensures path == "/logon/" + Rewrite(cmdr)
  {
    RewritePrefixed("/logon/", cmdr);
    Rewrite("/logon/" + cmdr)
  }

  /** The path `post_logoff(cmdr)` requests: `/logoff/<cmdr>` with spaces rewritten. */
  function LogoffRequest(cmdr: string): (path: string)
    ensures path == "/logoff/" + Rewrite(cmdr)
  {
    RewritePrefixed("/logoff/", cmdr);
    Rewrite("/logoff/" + cmdr)
  }

  /** The path `post_station(cmdr, station)` requests: the station comes before the commander. */
  function StationRequest(cmdr: string, station: string): (path: string)
    ensures path == "/station/" + Rewrite(station) + "/" + Rewrite(cmdr)
  {
    RewritePrefixedPair("/station/", station, cmdr);
    Rewrite("/station/" + station + "/" + cmdr)
  }

  /** The path `post_system(cmdr, system)` requests: the system comes before the commander. */
  function SystemRequest(cmdr: string, system: string): (path: string)
    ensures path == "/system/" + Rewrite(system) + "/" + Rewrite(cmdr)
  {
    RewritePrefixedPair("/system/", system, cmdr);
    Rewrite("/system/" + system + "/" + cmdr)
  }

  /** Example: a station marker for "cmdr one" at "station two". */
  lemma StationRequestExample()
    ensures StationRequest("cmdr one", "station two") == "/station/station+two/cmdr+one"
  {
    assert Rewrite("cmdr one") == "cmdr+one" && Rewrite("station two") == "station+two";
    StationPathText(StationRequest("cmdr one", "station two"), Rewrite("station two"), Rewrite("cmdr one"));
  }

  /** Helper for the example: the literal path text, kept apart so the rewrites are not unfolded inside it. */
  lemma StationPathText(path: string, s: string, c: string)
    requires path == "/station/" + s + "/" + c
    requires s == "station+two" && c == "cmdr+one"
    ensures path == "/station/station+two/cmdr+one"
  {
  }

  // ---------------------------------------------------------------------
  // Splitting a marker path back into its segments
  // ---------------------------------------------------------------------

  /** The segments of a path, split at '/' (Python's `path.split('/')`). */
  function Segments(path: string): (r: seq<string>)
    ensures |r| >= 1
  {
    if path == [] then [""]
    else
      var rest := Segments(path[1..]);
      if path[0] == '/' then [""] + rest
      else [[path[0]] + rest[0]] + rest[1..]
  }

  /** Segments of a piece without '/' followed by '/' and more text. */
  lemma {:induction false} SegmentsOfPiece(piece: string, tail: string)
    requires '/' !in piece
    ensures Segments(piece + "/" + tail) == [piece] + Segments(tail)
  {
    if piece == [] {
      assert piece + "/" + tail == "/" + tail;
      assert ("/" + tail)[1..] == tail;
    } else {
      assert (piece + "/" + tail)[1..] == piece[1..] + "/" + tail;
      SegmentsOfPiece(piece[1..], tail);
      assert [piece[0]] + piece[1..] == piece;
    }
  }

  /** A leading '/' opens an empty first segment. */
  lemma SegmentsOfSlash(tail: string)
    ensures Segments("/" + tail) == [""] + Segments(tail)
  {
    assert ("/" + tail)[0] == '/';
    assert ("/" + tail)[1..] == tail;
  }

  /** Segments of text without '/'. */
  lemma {:induction false} SegmentsOfName(name: string)
    requires '/' !in name
    ensures Segments(name) == [name]
  {
    if name != [] {
      SegmentsOfName(name[1..]);
      assert [name[0]] + name[1..] == name;
    }
  }

  lemma RewriteKeepsSlashFree(s: string)
    requires '/' !in s
    ensures '/' !in Rewrite(s)
  {
    assert forall i :: 0 <= i < |s| ==> Rewrite(s)[i] != '/';
  }

  /** A marker path `/<verb>/<c>` splits into the verb and `c`. */
  lemma MarkerSegments(verb: string, c: string)
    requires '/' !in verb && '/' !in c
    ensures Segments("/" + verb + "/" + c) == ["", verb, c]
  {
    SegmentsOfName(c);
    SegmentsOfPiece(verb, c);
    assert "/" + verb + "/" + c == "/" + (verb + "/" + c);
    SegmentsOfSlash(verb + "/" + c);
  }

  /** Helper: the regrouping of a two-name marker path that `PairMarkerSegments` splits. */
  lemma PairMarkerShape(verb: string, p: string, c: string)
    ensures "/" + verb + "/" + p + "/" + c == "/" + (verb + "/" + (p + "/" + c))
  {
  }

  /** A marker path `/<verb>/<p>/<c>` splits into the verb, `p` and `c`. */
  lemma PairMarkerSegments(verb: string, p: string, c: string)
    requires '/' !in verb && '/' !in p && '/' !in c
    ensures Segments("/" + verb + "/" + p + "/" + c) == ["", verb, p, c]
  {
    var tail := p + "/" + c;
    SegmentsOfName(c);
    SegmentsOfPiece(p, c);
    var mid := verb + "/" + tail;
    SegmentsOfPiece(verb, tail);
    SegmentsOfSlash(mid);
    PairMarkerShape(verb, p, c);
  }

  /**
   * When neither name contains '/', the station marker splits into exactly
   * the verb, the rewritten station and the rewritten commander: the
   * service can take both rewritten names back out of the path.
   */
  lemma StationRequestSegments(cmdr: string, station: string)
    requires '/' !in cmdr && '/' !in station
    ensures Segments(StationRequest(cmdr, station)) == ["", "station", Rewrite(station), Rewrite(cmdr)]
  {
    RewriteKeepsSlashFree(cmdr);
    RewriteKeepsSlashFree(station);
    assert "/station/" == "/" + "station" + "/";
    PairMarkerSegments("station", Rewrite(station), Rewrite(cmdr));
  }

  /** The same for the system marker. */
  lemma SystemRequestSegments(cmdr: string, system: string)
    requires '/' !in cmdr && '/' !in system
    ensures Segments(SystemRequest(cmdr, system)) == ["", "system", Rewrite(system), Rewrite(cmdr)]
  {
    RewriteKeepsSlashFree(cmdr);
    RewriteKeepsSlashFree(system);
    assert "/system/" == "/" + "system" + "/";
    PairMarkerSegments("system", Rewrite(system), Rewrite(cmdr));
  }

  /** The logon and logoff markers split into the verb and the rewritten commander. */
  lemma LogonLogoffRequestSegments(cmdr: string)
    requires '/' !in cmdr
    ensures Segments(LogonRequest(cmdr)) == ["", "logon", Rewrite(cmdr)]
    ensures Segments(LogoffRequest(cmdr)) == ["", "logoff", Rewrite(cmdr)]
  {
    RewriteKeepsSlashFree(cmdr);
    assert "/logon/" == "/" + "logon" + "/";
    assert "/logoff/" == "/" + "logoff" + "/";
    MarkerSegments("logon", Rewrite(cmdr));
    MarkerSegments("logoff", Rewrite(cmdr));
  }

  // ---------------------------------------------------------------------
  // get_active
  // ---------------------------------------------------------------------

  /** The `cmdrName` of one list element, if it has one. */
  function NameOf(item: Json): seq<Json> {
    if HasKey(item, "cmdrName") then [Field(item, "cmdrName")] else []
  }

  /** The names collected from a decoded list: elements without `cmdrName` are skipped. */
  function CmdrNames(items: seq<Json>): (names: seq<Json>)
    ensures |names| <= |items|
  {
    if items == [] then [] else CmdrNames(items[..|items| - 1]) + NameOf(items[|items| - 1])
  }

  /** Collecting names over a concatenation collects over each part, in order. */
  lemma {:induction false} CmdrNamesConcat(a: seq<Json>, b: seq<Json>)
    ensures CmdrNames(a + b) == CmdrNames(a) + CmdrNames(b)
  {
    if b == [] {
      assert a + b == a;
    } else {
      var b' := b[..|b| - 1];
      assert (a + b)[..|a + b| - 1] == a + b';
      CmdrNamesConcat(a, b');
    }
  }

  /** When every element carries `cmdrName`, the result is exactly those names, one per element. */
  lemma {:induction false} CmdrNamesAllNamed(items: seq<Json>)
    requires forall k :: 0 <= k < |items| ==> HasKey(items[k], "cmdrName")
    ensures |CmdrNames(items)| == |items|
    ensures forall k :: 0 <= k < |items| ==> CmdrNames(items)[k] == Field(items[k], "cmdrName")
  {
    if items != [] {
      CmdrNamesAllNamed(items[..|items| - 1]);
    }
  }

  /** A value is returned exactly when some element carries it as its `cmdrName`. */
  lemma {:induction false} CmdrNamesMembers(items: seq<Json>, v: Json)
    ensures v in CmdrNames(items) <==>
            exists k :: 0 <= k < |items| && HasKey(items[k], "cmdrName") && Field(items[k], "cmdrName") == v
  {
    if items != [] {
      var init := items[..|items| - 1];
      CmdrNamesMembers(init, v);
      assert forall k :: 0 <= k < |init| ==> init[k] == items[k];
      if v in CmdrNames(items) && v !in CmdrNames(init) {
        assert v in NameOf(items[|items| - 1]);
      }
    }
  }

  /** Elements without `cmdrName` contribute nothing. */
  lemma {:induction false} CmdrNamesNoneNamed(items: seq<Json>)
    requires forall k :: 0 <= k < |items| ==> !HasKey(items[k], "cmdrName")
    ensures CmdrNames(items) == []
  {
    if items != [] {
      CmdrNamesNoneNamed(items[..|items| - 1]);
    }
  }

  /** The two query paths contain no spaces, so the transport is asked for them exactly as written. */
  lemma QueryPathsSentAsIs(server: string -> GetReply)
    ensures Get("/active", server) == if server("/active").status == 200 then Some(server("/active").body) else None
    ensures Get("/active-count", server) == if server("/active-count").status == 200 then Some(server("/active-count").body) else None
  {
    RewriteSpaceFree("/active");
    RewriteSpaceFree("/active-count");
  }

  /**
   * `get_active()`: GET /active, decode the `message` string a second time,
   * and collect the `cmdrName` of every element of the resulting list.
   */
  method GetActive(server: string -> GetReply, loads: Json -> Option<Json>) returns (names: Option<seq<Json>>)
    ensures var response := Get("/active", server);
            names.None? <==>
              (response.None?
               || !Truthy(response.value)
               || !HasKey(response.value, "message")
               || loads(Field(response.value, "message")).None?
               || !loads(Field(response.value, "message")).value.JList?)
    ensures names.Some? ==>
              var items := loads(Field(Get("/active", server).value, "message")).value.items;
              names.value == CmdrNames(items) && |names.value| <= |items|
  {
    var response := Get("/active", server);
    if response.None? || !Truthy(response.value) || !HasKey(response.value, "message") {
      return None;
    }
    var decoded := loads(Field(response.value, "message"));
    if decoded.None? {
      return None;
    }
    if !decoded.value.JList? {
      return None;
    }
    var items := decoded.value.items;
    var collected: seq<Json> := [];
    for i := 0 to |items|
      invariant collected == CmdrNames(items[..i])
    {
      assert items[..i + 1][..i] == items[..i];
      if !HasKey(items[i], "cmdrName") {
        continue;
      }
      collected := collected + [Field(items[i], "cmdrName")];
    }
    assert items[..|items|] == items;
    return Some(collected);
  }

  /** Example: one named element and one malformed element give just the one name. */
  lemma CmdrNamesExample()
    ensures CmdrNames([JObject(map["cmdrName" := JStr("Jameson")]), JObject(map["bad" := JInt(1)])])
            == [JStr("Jameson")]
  {
    var items := [JObject(map["cmdrName" := JStr("Jameson")]), JObject(map["bad" := JInt(1)])];
    assert items[..1] == [items[0]];
    assert [items[0]][..0] == [];
  }

  // ---------------------------------------------------------------------
  // get_active_count
  // ---------------------------------------------------------------------

  /**
   * `get_active_count()`: GET /active-count and read `message` as an integer;
   * `None` when the request fails, the body is empty or has no `message`, or
   * the integer conversion fails.
   */
  function GetActiveCount(server: string -> GetReply, toInt: Json -> Option<int>): (r: Option<int>)
    ensures var response := Get("/active-count", server);
            (r.None? <==>
              (response.None?
               || !Truthy(response.value)
               || !HasKey(response.value, "message")
               || toInt(Field(response.value, "message")).None?))
            && (r.Some? ==> r == toInt(Field(response.value, "message")))
  {
    var response := Get("/active-count", server);
    if response.None? || !Truthy(response.value) || !HasKey(response.value, "message") then None
    else toInt(Field(response.value, "message"))
  }

  /** Examples: a message "42" gives 42 and a message "abc" gives nothing. */
  lemma GetActiveCountExamples(server: string -> GetReply, toInt: Json -> Option<int>, text: string)
    requires server("/active-count") == GetReply(200, JObject(map["message" := JStr(text)]))
    requires toInt(JStr("42")) == Some(42) && toInt(JStr("abc")) == None
    ensures text == "42" ==> GetActiveCount(server, toInt) == Some(42)
    ensures text == "abc" ==> GetActiveCount(server, toInt) == None
  {
    QueryPathsSentAsIs(server);
    assert HasKey(server("/active-count").body, "message");
  }

  /** A failed request answers `None` whatever the integer conversion would do. */
  lemma GetActiveCountTransportFailure(server: string -> GetReply, toInt: Json -> Option<int>)
    requires server("/active-count").status != 200
    ensures GetActiveCount(server, toInt) == None
  {
    QueryPathsSentAsIs(server);
  }
}
