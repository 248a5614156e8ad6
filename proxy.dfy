/**
 * The startup of the Eth 1.0 proxy process: its command-line flags and their
 * defaults, the rule that decides whether the WebSocket proxy runs beside the
 * HTTP proxy, and the wait group that joins the two server tasks. The two
 * tasks run in goroutines; here they run one after the other, in either
 * order. The proxy servers themselves are opaque: starting one is recorded as
 * an event carrying the settings it was given.
 */
module PowProxy {

  /** The proxy's seven string flags. */
  datatype FlagName = HttpPort | WsPort | HttpProviderUrl | WsProviderUrl | Network | ProjectId | ProviderType

  /** The name a flag has on the command line. */
  function NameOf(n: FlagName): string {
    match n
    case HttpPort => "httpPort"
    case WsPort => "wsPort"
    case HttpProviderUrl => "httpProviderUrl"
    case WsProviderUrl => "wsProviderUrl"
    case Network => "network"
    case ProjectId => "projectId"
    case ProviderType => "providerType"
  }

  /** A string flag of the proxy and its default value. */
  datatype Flag = Flag(name: FlagName, defaultValue: string)

  const AppFlags: seq<Flag> := [
    Flag(HttpPort, "8545"),
    Flag(WsPort, "8546"),
    Flag(HttpProviderUrl, ""),
    Flag(WsProviderUrl, ""),
    Flag(Network, "goerli"),
    Flag(ProjectId, ""),
    Flag(ProviderType, "infura")
  ]

  const HttpOnlyMessage := "No websocket URL provided, running in HTTP-only mode."

  /** The default of the first flag in `flags` called `name`; `""` when there is none. */
  function DefaultIn(flags: seq<Flag>, name: FlagName): string {
    if flags == [] then ""
    else if flags[0].name == name then flags[0].defaultValue
    else DefaultIn(flags[1..], name)
  }

  /**
   * `c.GlobalString(name)`: the value given on the command line (keyed by the
   * flag's name once the command-line library has resolved aliases), or the
   * flag's default.
   */
  function GlobalString(given: map<string, string>, name: FlagName): (r: string)
    ensures NameOf(name) in given ==> r == given[NameOf(name)]
    ensures NameOf(name) !in given ==> Flag(name, r) in AppFlags
  {
    if NameOf(name) in given then given[NameOf(name)]
    else
      DefaultInDeclared(AppFlags, name, FlagIndex(name));
      DefaultIn(AppFlags, name)
  }

  /** Where each flag sits in `AppFlags`. */
  function FlagIndex(name: FlagName): (i: nat)
    ensures i < |AppFlags| && AppFlags[i].name == name
  {
    match name
    case HttpPort => 0
    case WsPort => 1
    case HttpProviderUrl => 2
    case WsProviderUrl => 3
    case Network => 4
    case ProjectId => 5
    case ProviderType => 6
  }

  /** A flag that is declared has its default found among the declarations. */
  lemma {:induction false} DefaultInDeclared(flags: seq<Flag>, name: FlagName, i: nat)
    requires i < |flags| && flags[i].name == name
    ensures Flag(name, DefaultIn(flags, name)) in flags
  {
    if flags[0].name != name {
      DefaultInDeclared(flags[1..], name, i - 1);
    }
  }

  /** The seven settings the action reads. */
  datatype Settings = Settings(
    httpPort: string,
    wsPort: string,
    httpProviderUrl: string,
    wsProviderUrl: string,
    network: string,
    projectId: string,
    providerType: string)

  /** The setting that holds the flag `name`. */
  function SettingOf(s: Settings, name: FlagName): string {
    match name
    case HttpPort => s.httpPort
    case WsPort => s.wsPort
    case HttpProviderUrl => s.httpProviderUrl
    case WsProviderUrl => s.wsProviderUrl
    case Network => s.network
    case ProjectId => s.projectId
    case ProviderType => s.providerType
  }

  /** The first flag with a name gives that name's default. */
  lemma {:induction false} DefaultInFirst(flags: seq<Flag>, i: nat)
    requires i < |flags|
    requires forall j :: 0 <= j < i ==> flags[j].name != flags[i].name
    ensures DefaultIn(flags, flags[i].name) == flags[i].defaultValue
  {
    if i > 0 {
      assert forall j :: 0 <= j < i - 1 ==> flags[1..][j] == flags[j + 1];
      DefaultInFirst(flags[1..], i - 1);
    }
  }

  /** The value given under a flag's name, or else that flag's declared default. */
  lemma GivenOrDefault(given: map<string, string>, name: FlagName)
    ensures GlobalString(given, name)
            == if NameOf(name) in given then given[NameOf(name)] else AppFlags[FlagIndex(name)].defaultValue
  {
    DefaultInFirst(AppFlags, FlagIndex(name));
  }

  /**
   * The seven settings, each read with `GlobalString` under its own flag:
   * every flag's setting is the value given under its name, or else the
   * flag's declared default.
   */
  function ReadSettings(given: map<string, string>): (s: Settings)
    ensures forall name {:trigger SettingOf(s, name)} :: SettingOf(s, name)
              == if NameOf(name) in given then given[NameOf(name)] else AppFlags[FlagIndex(name)].defaultValue
  {
    var s := Settings(
      GlobalString(given, HttpPort),
      GlobalString(given, WsPort),
      GlobalString(given, HttpProviderUrl),
      GlobalString(given, WsProviderUrl),
      GlobalString(given, Network),
      GlobalString(given, ProjectId),
      GlobalString(given, ProviderType));
    assert forall name :: SettingOf(s, name)
             == if NameOf(name) in given then given[NameOf(name)] else AppFlags[FlagIndex(name)].defaultValue
    by {
      forall name
        ensures SettingOf(s, name)
                == if NameOf(name) in given then given[NameOf(name)] else AppFlags[FlagIndex(name)].defaultValue
      {
        GivenOrDefault(given, name);
      }
    }
    s
  }

  /** With no flags given, every setting takes its declared default. */
  lemma DefaultSettings()
    ensures ReadSettings(map[]) == Settings("8545", "8546", "", "", "goerli", "", "infura")
  {
    var s := ReadSettings(map[]);
    assert SettingOf(s, HttpPort) == "8545" && SettingOf(s, WsPort) == "8546";
    assert SettingOf(s, HttpProviderUrl) == "" && SettingOf(s, WsProviderUrl) == "";
    assert SettingOf(s, Network) == "goerli" && SettingOf(s, ProjectId) == "" && SettingOf(s, ProviderType) == "infura";
  }

  /**
   * The WebSocket proxy starts when the provider type is exactly `infura` or a
   * WebSocket provider URL was given; otherwise the process is HTTP-only.
   */
  predicate StartsWebSocket(s: Settings) {
    s.providerType == "infura" || s.wsProviderUrl != ""
  }

  /**
   * In terms of the command line: the WebSocket proxy starts exactly when no
   * provider type is given (so the default `infura` applies), the provider
   * type is given as `infura`, or a non-empty WebSocket URL is given.
   */
  lemma StartsWebSocketFlags(given: map<string, string>)
    ensures StartsWebSocket(ReadSettings(given))
        <==> || "providerType" !in given
             || given["providerType"] == "infura"
             || ("wsProviderUrl" in given && given["wsProviderUrl"] != "")
  {
    var s := ReadSettings(given);
    assert SettingOf(s, WsProviderUrl) == s.wsProviderUrl;
    assert SettingOf(s, ProviderType) == s.providerType;
  }

  /** With the defaults (provider type `infura`) the WebSocket proxy starts. */
  lemma DefaultsStartWebSocket()
    ensures StartsWebSocket(ReadSettings(map[]))
  {
    StartsWebSocketFlags(map[]);
  }

  datatype Task = HttpTask | WsTask

  /** What the action does, in order. */
  datatype Event =
    | HttpProxyServed(port: string, providerUrl: string, network: string, projectId: string, providerType: string)
    | WsProxyServed(port: string, providerUrl: string, network: string, projectId: string)
    | Logged(message: string)
    | TaskDone(task: Task)
    | Joined

  /** The number of `TaskDone` events in `trace`. */
  function DoneCount(trace: seq<Event>): nat {
    if trace == [] then 0
    else (if trace[0].TaskDone? then 1 else 0) + DoneCount(trace[1..])
  }

  lemma {:induction false} DoneCountAppend(a: seq<Event>, b: seq<Event>)
    ensures DoneCount(a + b) == DoneCount(a) + DoneCount(b)
  {
    if a == [] {
      assert a + b == b;
    } else {
      assert (a + b)[1..] == a[1..] + b;
      DoneCountAppend(a[1..], b);
    }
  }

  /** `sync.WaitGroup`: a counter of unfinished tasks; `Wait` is released when it is zero. */
  class WaitGroup {
    var counter: int

    constructor ()
      ensures counter == 0
    {
      counter := 0;
    }

    /** A negative counter makes Go panic, so callers keep it non-negative. */
    method Add(delta: int)
      requires counter + delta >= 0
      modifies this
      ensures counter == old(counter) + delta
    {
      counter := counter + delta;
    }

    method Done()
      requires counter > 0
      modifies this
      ensures counter == old(counter) - 1
    {
      counter := counter - 1;
    }

    /** Whether a call to `Wait` now returns rather than blocks. */
    method Wait() returns (released: bool)
      ensures released <==> counter == 0
    {
      released := counter == 0;
    }
  }

  /** The events of the HTTP task. */
  function HttpEvents(s: Settings): seq<Event> {
    [HttpProxyServed(s.httpPort, s.httpProviderUrl, s.network, s.projectId, s.providerType), TaskDone(HttpTask)]
  }

  /** The events of the WebSocket task. */
  function WsEvents(s: Settings): seq<Event> {
    (if StartsWebSocket(s) then [WsProxyServed(s.wsPort, s.wsProviderUrl, s.network, s.projectId)]
     else [Logged(HttpOnlyMessage)])
    + [TaskDone(WsTask)]
  }

  /** The action's events when the tasks run one after the other, then the join. */
  function ActionTrace(s: Settings, httpFirst: bool): seq<Event> {
    (if httpFirst then HttpEvents(s) + WsEvents(s) else WsEvents(s) + HttpEvents(s)) + [Joined]
  }

  /** The action's events written out: the two tasks' events in the chosen order, then the join. */
  lemma ActionTraceShape(s: Settings, httpFirst: bool)
    ensures var http := HttpProxyServed(s.httpPort, s.httpProviderUrl, s.network, s.projectId, s.providerType);
            var ws := if StartsWebSocket(s) then WsProxyServed(s.wsPort, s.wsProviderUrl, s.network, s.projectId)
                      else Logged(HttpOnlyMessage);
            ActionTrace(s, httpFirst)
              == if httpFirst then [http, TaskDone(HttpTask), ws, TaskDone(WsTask), Joined]
                 else [ws, TaskDone(WsTask), http, TaskDone(HttpTask), Joined]
  {
  }

  /**
   * Whatever the order of the tasks, the HTTP proxy runs once with the HTTP
   * settings and the provider type; the WebSocket proxy runs, without the
   * provider type, exactly when `StartsWebSocket` holds, and otherwise the
   * HTTP-only notice is logged.
   */
  lemma ActionServers(s: Settings, httpFirst: bool)
    ensures var trace := ActionTrace(s, httpFirst);
            && HttpProxyServed(s.httpPort, s.httpProviderUrl, s.network, s.projectId, s.providerType) in trace
            && (forall e :: e in trace && e.HttpProxyServed?
                  ==> e == HttpProxyServed(s.httpPort, s.httpProviderUrl, s.network, s.projectId, s.providerType))
            && (WsProxyServed(s.wsPort, s.wsProviderUrl, s.network, s.projectId) in trace <==> StartsWebSocket(s))
            && (forall e :: e in trace && e.WsProxyServed?
                  ==> e == WsProxyServed(s.wsPort, s.wsProviderUrl, s.network, s.projectId))
            && (Logged(HttpOnlyMessage) in trace <==> !StartsWebSocket(s))
  {
    ActionTraceShape(s, httpFirst);
  }

  /** Each task reports done exactly once, whatever the order of the tasks. */
  lemma ActionTasksReportOnce(s: Settings, httpFirst: bool)
    ensures var trace := ActionTrace(s, httpFirst);
            && multiset(trace)[TaskDone(HttpTask)] == 1
            && multiset(trace)[TaskDone(WsTask)] == 1
  {
    var h, w := HttpEvents(s), WsEvents(s);
    assert multiset(h)[TaskDone(HttpTask)] == 1 && multiset(h)[TaskDone(WsTask)] == 0;
    assert multiset(w)[TaskDone(HttpTask)] == 0 && multiset(w)[TaskDone(WsTask)] == 1;
    assert multiset(ActionTrace(s, httpFirst)) == multiset(h) + multiset(w) + multiset([Joined]);
  }

  /**
   * Join accounting: the join is the last of five events, and the four before
   * it hold both reports of done.
   */
  lemma ActionJoin(s: Settings, httpFirst: bool)
    ensures var trace := ActionTrace(s, httpFirst);
            && |trace| == 5
            && trace[4] == Joined && Joined !in trace[..4]
            && DoneCount(trace[..4]) == 2
  {
    ActionTraceShape(s, httpFirst);
    var h, w := HttpEvents(s), WsEvents(s);
    var trace := ActionTrace(s, httpFirst);
    assert trace[..4] == if httpFirst then h + w else w + h;
    assert Joined !in h && Joined !in w;
    assert DoneCount(h) == 1 by {
      assert h[1..] == [TaskDone(HttpTask)];
      assert h[1..][1..] == [];
      assert DoneCount(h[1..]) == 1 + DoneCount([]);
    }
    assert DoneCount(w) == 1 by {
      assert w[1..] == [TaskDone(WsTask)];
      assert w[1..][1..] == [];
      assert DoneCount(w[1..]) == 1 + DoneCount([]);
    }
    if httpFirst {
      DoneCountAppend(h, w);
    } else {
      DoneCountAppend(w, h);
    }
  }

  /** The HTTP goroutine: serve HTTP with all five settings, then `Done`. */
  method RunHttpTask(s: Settings, wg: WaitGroup) returns (events: seq<Event>)
    requires wg.counter > 0
    modifies wg
    ensures wg.counter == old(wg.counter) - 1
    ensures events == HttpEvents(s)
  {
    events := [HttpProxyServed(s.httpPort, s.httpProviderUrl, s.network, s.projectId, s.providerType)];
    wg.Done();
    events := events + [TaskDone(HttpTask)];
  }

  /** The WebSocket goroutine: serve WebSocket or log the HTTP-only notice, then `Done` on either path. */
  method RunWsTask(s: Settings, wg: WaitGroup) returns (events: seq<Event>)
    requires wg.counter > 0
    modifies wg
    ensures wg.counter == old(wg.counter) - 1
    ensures events == WsEvents(s)
  {
    if s.providerType == "infura" || s.wsProviderUrl != "" {
      events := [WsProxyServed(s.wsPort, s.wsProviderUrl, s.network, s.projectId)];
    } else {
      events := [Logged(HttpOnlyMessage)];
    }
    wg.Done();
    events := events + [TaskDone(WsTask)];
  }

  /**
   * The application action: read the flags, `Add(2)`, the two tasks (in the
   * order `httpFirst` picks), then `Wait`. A `Wait` between the tasks would
   * still block; the one after both returns.
   */
  method Action(given: map<string, string>, httpFirst: bool)
    returns (trace: seq<Event>, releasedAfterOne: bool, releasedAfterBoth: bool)
    ensures trace == ActionTrace(ReadSettings(given), httpFirst)
    ensures !releasedAfterOne && releasedAfterBoth
  {
    var s := ReadSettings(given);
    trace, releasedAfterOne, releasedAfterBoth := RunTasks(s, httpFirst);
  }

  /** The part of the action after the flags are read: the wait group and the two tasks. */
  method RunTasks(s: Settings, httpFirst: bool)
    returns (trace: seq<Event>, releasedAfterOne: bool, releasedAfterBoth: bool)
    ensures trace == ActionTrace(s, httpFirst)
    ensures !releasedAfterOne && releasedAfterBoth
  {
    var wg := new WaitGroup();
    wg.Add(2);
    var first, second;
    if httpFirst {
      first := RunHttpTask(s, wg);
      releasedAfterOne := wg.Wait();
      second := RunWsTask(s, wg);
    } else {
      first := RunWsTask(s, wg);
      releasedAfterOne := wg.Wait();
      second := RunHttpTask(s, wg);
    }
    releasedAfterBoth := wg.Wait();
    trace := first + second + [Joined];
  }
}
