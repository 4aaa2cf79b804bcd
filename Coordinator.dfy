/** `AcondCoordinator`: the client it owns, the reconnect-on-failure fetch,
    and the trace of everything it and the entities ask of the client. */
module Coordinator {
  import opened Wrappers
  import opened Device
  import Const

  /** The configuration entry's data: `CONF_HOST`, and `CONF_PORT` when present. */
  datatype ConfigData = ConfigData(host: string, port: Option<int>)

  /** `config_entry.data.get(CONF_PORT, DEFAULT_PORT)` */
  function Port(config: ConfigData): (p: int)
    ensures config.port.Some? ==> p == config.port.value
    ensures config.port.None? ==> p == 502
  {
    config.port.GetOr(Const.DefaultPort)
  }

  /** Calls observable outside the coordinator, in the order they are made. */
  datatype Event =
    | ReadData                          // client.read_data()
    | Close                             // client.close()
    | NewClient(host: string, port: int) // AcondHeatPump(host, port)
    | Connect                           // client.connect()
    | Write(command: Command)           // one client setter call
    | RefreshRequested                  // coordinator.async_request_refresh()

  /** What `read_data()` does: return a snapshot or raise. */
  datatype ReadAnswer = Data(snapshot: Snapshot) | ReadRaised(fault: Fault)

  /** What `connect()` does: return a boolean or raise. */
  datatype ConnectAnswer = Connected(ok: bool) | ConnectRaised(fault: Fault)

  /** The answers the link gives, call by call, during one fetch. A call that
      is never made leaves its answer unused. */
  datatype Link = Link(firstRead: ReadAnswer, close: Outcome<Fault>, connect: ConnectAnswer, retryRead: ReadAnswer)

  /** What `_async_update_data` delivers: the snapshot, or `UpdateFailed`
      carrying the underlying exception. */
  datatype UpdateResult = Updated(snapshot: Snapshot) | UpdateFailed(cause: Fault)

  /** The calls and the result of one run of a coordinator operation. */
  datatype Run<R> = Run(result: R, calls: seq<Event>)

  /** The number of times `e` occurs in `s`. */
  function Occurrences(s: seq<Event>, e: Event): nat {
    if s == [] then 0 else (if s[0] == e then 1 else 0) + Occurrences(s[1..], e)
  }

  lemma {:induction false} OccurrencesAppend(a: seq<Event>, b: seq<Event>, e: Event)
    ensures Occurrences(a + b, e) == Occurrences(a, e) + Occurrences(b, e)
  {
    if a == [] {
      assert a + b == b;
    } else {
      assert (a + b)[1..] == a[1..] + b;
      OccurrencesAppend(a[1..], b, e);
    }
  }

  lemma OccurrencesCons(x: Event, s: seq<Event>, e: Event)
    ensures Occurrences([x] + s, e) == (if x == e then 1 else 0) + Occurrences(s, e)
  {
    assert ([x] + s)[1..] == s;
  }

  /** The calls of one reconnect: the old client closed, a new one built for
      the configured address, and connected. */
  function ReconnectCalls(config: ConfigData): seq<Event> {
    [Close, NewClient(config.host, Port(config)), Connect]
  }

  lemma ReconnectOccurrences(config: ConfigData)
    ensures Occurrences(ReconnectCalls(config), Close) == 1
    ensures Occurrences(ReconnectCalls(config), Connect) == 1
    ensures Occurrences(ReconnectCalls(config), ReadData) == 0
  {
    var n := NewClient(config.host, Port(config));
    assert ReconnectCalls(config) == [Close] + ([n] + ([Connect] + []));
    forall e | e in {Close, Connect, ReadData}
      ensures Occurrences(ReconnectCalls(config), e) == (if e == ReadData then 0 else 1)
    {
      OccurrencesCons(Close, [n] + ([Connect] + []), e);
      OccurrencesCons(n, [Connect] + [], e);
      OccurrencesCons(Connect, [], e);
    }
  }

  function AsResult(answer: ReadAnswer): Result<Snapshot, Fault> {
    match answer
    case Data(s) => Ok(s)
    case ReadRaised(f) => Err(f)
  }

  /** `_reconnect`: close the old client, build one from the configured
      address, connect it; a refused connection raises `HeatPumpConnectionError`.
      Whatever `close()` does is ignored. */
  function ReconnectSpec(config: ConfigData, connect: ConnectAnswer): Run<Outcome<Fault>> {
    var calls := ReconnectCalls(config);
    match connect
    case Connected(ok) => Run(if ok then Pass else Fail(ConnectionError), calls)
    case ConnectRaised(f) => Run(Fail(f), calls)
  }

  /** `_sync_read`: one read; on any failure one reconnect and, when it
      succeeded, one more read whose outcome is final. */
  function SyncReadSpec(config: ConfigData, link: Link): Run<Result<Snapshot, Fault>> {
    match link.firstRead
    case Data(s) => Run(Ok(s), [ReadData])
    case ReadRaised(_) =>
      var reconnect := ReconnectSpec(config, link.connect);
      if reconnect.result.Fail? then Run(Err(reconnect.result.error), [ReadData] + reconnect.calls)
      else Run(AsResult(link.retryRead), [ReadData] + reconnect.calls + [ReadData])
  }

  /** `_async_update_data`: every exception escaping `_sync_read` becomes `UpdateFailed`. */
  function UpdateSpec(config: ConfigData, link: Link): Run<UpdateResult> {
    var fetch := SyncReadSpec(config, link);
    match fetch.result
    case Ok(s) => Run(Updated(s), fetch.calls)
    case Err(f) => Run(UpdateFailed(f), fetch.calls)
  }

  /** A fetch reads at most twice and reconnects at most once, always to the
      configured address. */
  lemma FetchIsBounded(config: ConfigData, link: Link)
    ensures Occurrences(SyncReadSpec(config, link).calls, ReadData) <= 2
    ensures Occurrences(SyncReadSpec(config, link).calls, Close) <= 1
    ensures Occurrences(SyncReadSpec(config, link).calls, Connect) <= 1
    ensures forall e :: e in SyncReadSpec(config, link).calls && e.NewClient? ==>
              e == NewClient(config.host, Port(config))
  {
    var reconnect := ReconnectCalls(config);
    ReconnectOccurrences(config);
    if link.firstRead.ReadRaised? {
      OccurrencesAppend([ReadData], reconnect, ReadData);
      OccurrencesAppend([ReadData], reconnect, Close);
      OccurrencesAppend([ReadData], reconnect, Connect);
      OccurrencesAppend([ReadData] + reconnect, [ReadData], ReadData);
      OccurrencesAppend([ReadData] + reconnect, [ReadData], Close);
      OccurrencesAppend([ReadData] + reconnect, [ReadData], Connect);
    }
  }

  /** When the first read succeeds its snapshot is the result and nothing else
      is asked of the client. */
  lemma FirstReadSucceeds(config: ConfigData, link: Link)
    requires link.firstRead.Data?
    ensures UpdateSpec(config, link) == Run(Updated(link.firstRead.snapshot), [ReadData])
    ensures Close !in UpdateSpec(config, link).calls
  {
  }

  /** An exception from closing the old client changes nothing: the fetch makes
      the same calls and ends the same way whether or not `close()` raised.
      The specification functions never consult `link.close`, so this holds by
      construction; the evidence that the code swallows the exception is that
      `AcondCoordinator.Reconnect` meets `ReconnectSpec` for every `close`. */
  lemma CloseFailureIsSwallowed(config: ConfigData, link: Link, f: Fault)
    ensures UpdateSpec(config, link.(close := Fail(f))) == UpdateSpec(config, link.(close := Pass))
  {
  }

  /** When the first read fails, exactly one reconnect follows it. */
  lemma FailedReadReconnectsOnce(config: ConfigData, link: Link)
    requires link.firstRead.ReadRaised?
    ensures SyncReadSpec(config, link).calls[..4] == [ReadData, Close, NewClient(config.host, Port(config)), Connect]
    ensures Occurrences(SyncReadSpec(config, link).calls, Close) == 1
  {
    var reconnect := ReconnectCalls(config);
    ReconnectOccurrences(config);
    OccurrencesAppend([ReadData], reconnect, Close);
    OccurrencesAppend([ReadData] + reconnect, [ReadData], Close);
  }

  /** A refused connection raises `HeatPumpConnectionError` and no second read is tried. */
  lemma RefusedConnectionStopsFetch(config: ConfigData, link: Link)
    requires link.firstRead.ReadRaised? && link.connect == Connected(false)
    ensures UpdateSpec(config, link).result == UpdateFailed(ConnectionError)
    ensures Occurrences(UpdateSpec(config, link).calls, ReadData) == 1
  {
    ReconnectOccurrences(config);
    OccurrencesAppend([ReadData], ReconnectCalls(config), ReadData);
  }

  /** An update succeeds exactly when some read succeeded and could be used,
      and then delivers that read's snapshot unchanged; otherwise it fails
      once, with the exception of the last call that raised. */
  lemma UpdateOutcome(config: ConfigData, link: Link)
    ensures UpdateSpec(config, link).result.Updated? <==>
              link.firstRead.Data? || (link.connect == Connected(true) && link.retryRead.Data?)
    ensures UpdateSpec(config, link).result.Updated? ==>
              Data(UpdateSpec(config, link).result.snapshot) in {link.firstRead, link.retryRead}
    ensures UpdateSpec(config, link).result.UpdateFailed? ==>
              UpdateSpec(config, link).result.cause ==
                match link.connect
                case Connected(true) => link.retryRead.fault
                case Connected(false) => ConnectionError
                case ConnectRaised(f) => f
  {
  }

  /** The connection client the coordinator owns (`AcondHeatPump`). Its
      behaviour is not modelled: the answers to its calls are parameters. */
  class AcondHeatPump {
    const host: string
    const port: int

    constructor (host: string, port: int)
      ensures this.host == host && this.port == port
    {
      this.host := host;
      this.port := port;
    }
  }

  class AcondCoordinator {
    const config: ConfigData
    var client: AcondHeatPump
    /** Every call made to a client and every refresh request, oldest first. */
    var trace: seq<Event>

    constructor (client: AcondHeatPump, config: ConfigData)
      ensures this.client == client && this.config == config && trace == []
    {
      this.client := client;
      this.config := config;
      trace := [];
    }

    /** `client.read_data()` on the current client. */
    method ReadData(answer: ReadAnswer) returns (r: Result<Snapshot, Fault>)
      modifies this`trace
      ensures trace == old(trace) + [Event.ReadData]
      ensures r == AsResult(answer)
    {
      trace := trace + [Event.ReadData];
      match answer
      case Data(s) => r := Ok(s);
      case ReadRaised(f) => r := Err(f);
    }

    /** `_reconnect`: the client field is replaced by a fresh client for the
        configured address whatever `close()` and `connect()` do. */
    method Reconnect(close: Outcome<Fault>, connect: ConnectAnswer) returns (r: Outcome<Fault>)
      modifies this`client, this`trace
      ensures fresh(client) && client.host == config.host && client.port == Port(config)
      ensures trace == old(trace) + ReconnectSpec(config, connect).calls
      ensures r == ReconnectSpec(config, connect).result
    {
      trace := trace + [Close];
      match close {
        case Pass =>
        case Fail(_) =>  // swallowed
      }
      var host := config.host;
      var port := Port(config);
      client := new AcondHeatPump(host, port);
      trace := trace + [NewClient(host, port), Connect];
      match connect {
        case ConnectRaised(f) => r := Fail(f);
        case Connected(ok) =>
          if !ok {
            r := Fail(ConnectionError);
          } else {
            r := Pass;
          }
      }
    }

    /** `_sync_read` */
    method SyncRead(link: Link) returns (r: Result<Snapshot, Fault>)
      modifies this`client, this`trace
      ensures r == SyncReadSpec(config, link).result
      ensures trace == old(trace) + SyncReadSpec(config, link).calls
      ensures link.firstRead.Data? ==> client == old(client)
      ensures link.firstRead.ReadRaised? ==>
                fresh(client) && client.host == config.host && client.port == Port(config)
    {
      r := ReadData(link.firstRead);
      if r.Err? {
        var reconnected := Reconnect(link.close, link.connect);
        if reconnected.Fail? {
          r := Err(reconnected.error);
          return;
        }
        r := ReadData(link.retryRead);
      }
    }

    /** `_async_update_data` */
    method AsyncUpdateData(link: Link) returns (r: UpdateResult)
      modifies this`client, this`trace
      ensures r == UpdateSpec(config, link).result
      ensures trace == old(trace) + UpdateSpec(config, link).calls
      ensures link.firstRead.Data? ==> client == old(client)
      ensures link.firstRead.ReadRaised? ==>
                fresh(client) && client.host == config.host && client.port == Port(config)
    {
      var fetched := SyncRead(link);
      match fetched
      case Ok(s) => r := Updated(s);
      case Err(f) => r := UpdateFailed(f);
    }

    /** One client setter call issued by an entity; it returns or raises. */
    method ClientWrite(command: Command, answer: Outcome<Fault>) returns (r: Outcome<Fault>)
      modifies this`trace
      ensures trace == old(trace) + [Write(command)]
      ensures r == answer
    {
      trace := trace + [Write(command)];
      r := answer;
    }

    /** `async_request_refresh()`: the refresh itself is scheduled by Home
        Assistant's coordinator and is not part of this model. */
    method RequestRefresh()
      modifies this`trace
      ensures trace == old(trace) + [RefreshRequested]
    {
      trace := trace + [RefreshRequested];
    }
  }

  /** The one shape every entity write follows: when the input translated to a
      command, that command is written and, once the write has returned, one
      refresh is requested; when it did not, nothing happens. */
  function WriteSpec(command: Option<Command>, answer: Outcome<Fault>): Run<Outcome<Fault>> {
    match command
    case None => Run(Pass, [])
    case Some(c) => if answer.Fail? then Run(answer, [Write(c)]) else Run(Pass, [Write(c), RefreshRequested])
  }

  /** An entity write makes at most one client write and at most one refresh
      request, never touches the connection, and refreshes only after its write. */
  lemma WriteIsBounded(command: Option<Command>, answer: Outcome<Fault>)
    ensures |WriteSpec(command, answer).calls| <= 2
    ensures WriteSpec(command, answer).calls == [] <==> command.None?
    ensures forall e :: e in WriteSpec(command, answer).calls ==> e.Write? || e == RefreshRequested
    ensures RefreshRequested in WriteSpec(command, answer).calls <==> command.Some? && answer.Pass?
    ensures RefreshRequested in WriteSpec(command, answer).calls ==>
              WriteSpec(command, answer).calls == [Write(command.value), RefreshRequested]
    ensures command.Some? ==> WriteSpec(command, answer).calls[0] == Write(command.value)
    ensures command.Some? && answer.Fail? ==> WriteSpec(command, answer).calls == [Write(command.value)]
    ensures WriteSpec(command, answer).result == (if command.Some? then answer else Pass)
  {
  }
}
