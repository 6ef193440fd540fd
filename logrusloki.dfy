/**
 * The logrus hook of logrusloki.go: its options struct, the hook object, the
 * level and client fallbacks, and Fire, which turns one entry into a one-stream
 * batch with labels applied in a fixed order and classifies the push response.
 */
module LogrusLoki {
  import opened Wrappers
  import opened Strconv
  import opened Logrus
  import Http
  import opened Loki

  const PushLogsPath := "/loki/api/v1/push"

  /** The label that carries the entry's level. */
  const LevelLabel := "level"

  /** The push URL for a host: the host text followed by the push path. */
  function Endpoint(host: string): (endpoint: string)
    ensures |endpoint| == |host| + |PushLogsPath|
    ensures endpoint[..|host|] == host
    ensures endpoint[|host|..] == PushLogsPath
  {
    host + PushLogsPath
  }

  /** isSuccessStatusCode: exactly the 2xx status class. */
  function IsSuccessStatusCode(code: int): (ok: bool)
    ensures ok <==> code / 100 == 2
  {
    code >= 200 && code <= 299
  }

  /**
   * The labels of the stream Fire builds: the entry's fields, overridden by the
   * configured labels (a nil map adds nothing), with "level" set last.
   */
  function StreamLabels(data: map<string, string>, labels: Option<map<string, string>>, level: string): (r: map<string, string>)
    ensures r.Keys == data.Keys + labels.GetOr(map[]).Keys + {LevelLabel}
    ensures r[LevelLabel] == level
    ensures forall k :: k in labels.GetOr(map[]) && k != LevelLabel ==> r[k] == labels.GetOr(map[])[k]
    ensures forall k :: k in data && k !in labels.GetOr(map[]) && k != LevelLabel ==> r[k] == data[k]
  {
    (data + labels.GetOr(map[]))[LevelLabel := level]
  }

  /**
   * Writing src's keys into m one at a time, in the order given (a key may
   * repeat): what one run of a `for k, v := range src` loop does.
   */
  function ApplyInOrder(m: map<string, string>, src: map<string, string>, order: seq<string>): map<string, string>
    requires forall i :: 0 <= i < |order| ==> order[i] in src
    decreases |order|
  {
    if order == [] then m else ApplyInOrder(m[order[0] := src[order[0]]], src, order[1..])
  }

  /**
   * Every order that visits each key of src ends in the same map, m + src, so
   * the labels do not depend on Go's map iteration order.
   */
  lemma {:induction false} ApplyInAnyOrder(m: map<string, string>, src: map<string, string>, order: seq<string>)
    requires forall i :: 0 <= i < |order| ==> order[i] in src
    requires forall k :: k in src ==> k in order
    ensures ApplyInOrder(m, src, order) == m + src
  {
    ApplyInOrderRestricted(m, src, order);
    assert src == map k | k in src && k in order :: src[k];
  }

  lemma {:induction false} ApplyInOrderRestricted(m: map<string, string>, src: map<string, string>, order: seq<string>)
    requires forall i :: 0 <= i < |order| ==> order[i] in src
    ensures ApplyInOrder(m, src, order) == m + map k | k in src && k in order :: src[k]
    decreases |order|
  {
    if order != [] {
      var k0 := order[0];
      var rest := order[1..];
      ApplyInOrderRestricted(m[k0 := src[k0]], src, rest);
      assert forall k :: k in order <==> k == k0 || k in rest;
      assert m[k0 := src[k0]] + (map k | k in src && k in rest :: src[k])
          == m + (map k | k in src && k in order :: src[k]);
    }
  }

  /**
   * One `for k, v := range src { stream.AddLabel(k, v) }` loop of Fire. Keys
   * are taken in an arbitrary order, as Go's map iteration does; every order
   * ends with src written over the earlier labels.
   */
  method ApplyLabels(stream: Stream, src: map<string, string>)
    modifies stream
    ensures stream.Labels == old(stream.Labels) + src
    ensures stream.Entries == old(stream.Entries)
  {
    var pending := src.Keys;
    while pending != {}
      invariant pending <= src.Keys
      invariant stream.Entries == old(stream.Entries)
      invariant stream.Labels == old(stream.Labels) + (src - pending)
      decreases pending
    {
      var k :| k in pending;
      stream.AddLabel(k, src[k]);
      pending := pending - {k};
    }
    assert src - {} == src;
  }

  /** The LokiHookOptions struct of logrusloki.go; a nil map is None, a nil client null. */
  class LokiHookOptions {
    var LevelMap: Option<map<Level, string>>
    var Labels: Option<map<string, string>>
    var HttpClient: Http.Client?

    /** newDefaultOptions: empty maps and the default client. */
    constructor NewDefaultOptions(defaultClient: Http.Client)
      ensures LevelMap == Some(map[]) && Labels == Some(map[])
      ensures HttpClient == defaultClient
    {
      LevelMap := Some(map[]);
      Labels := Some(map[]);
      HttpClient := defaultClient;
    }
  }

  /** The request Fire posts: method, URL, content type and the batch, sent through a client. */
  datatype PushRequest = PushRequest(
    client: Http.Client,
    httpMethod: string,
    url: string,
    contentType: string,
    streams: seq<StreamValue>)

  /** Why Fire failed. */
  datatype FireError =
    | TransportFailed(reason: string)
    | BodyReadFailed(reason: string)
    | PushRejected(statusCode: int, body: string)

  /**
   * Fire's verdict on a push: success exactly for a 2xx response; a transport
   * error is passed on; otherwise the body is read and returned with the status.
   */
  function CheckResponse(outcome: Http.Outcome): (err: Option<FireError>)
    ensures err.None? <==> outcome.Response? && 200 <= outcome.statusCode <= 299
    ensures outcome.TransportError? ==> err == Some(TransportFailed(outcome.reason))
    ensures outcome.Response? && !(200 <= outcome.statusCode <= 299) ==>
      match outcome.body
      case BodyText(text) => err == Some(PushRejected(outcome.statusCode, text))
      case BodyReadError(reason) => err == Some(BodyReadFailed(reason))
  {
    match outcome
    case TransportError(reason) => Some(TransportFailed(reason))
    case Response(code, body) =>
      if IsSuccessStatusCode(code) then None
      else match body
        case BodyText(text) => Some(PushRejected(code, text))
        case BodyReadError(reason) => Some(BodyReadFailed(reason))
  }

  class LokiHook {
    const endpoint: string
    const levels: seq<Level>
    /** Go allows a nil options pointer here; Fire, getLevel and getClient then panic. */
    const opts: LokiHookOptions?

    /** NewLokiHookWithOpts: the endpoint is the host followed by the push path. */
    constructor NewLokiHookWithOpts(host: string, levels: seq<Level>, opts: LokiHookOptions?)
      ensures endpoint == Endpoint(host)
      ensures this.levels == levels && this.opts == opts
    {
      endpoint := Endpoint(host);
      this.levels := levels;
      this.opts := opts;
    }

    /** NewLokiHook: as NewLokiHookWithOpts, with fresh default options. */
    constructor NewLokiHook(host: string, defaultClient: Http.Client, levels: seq<Level>)
      ensures endpoint == Endpoint(host) && this.levels == levels
      ensures opts != null && fresh(opts)
      ensures opts.LevelMap == Some(map[]) && opts.Labels == Some(map[]) && opts.HttpClient == defaultClient
    {
      endpoint := Endpoint(host);
      this.levels := levels;
      opts := new LokiHookOptions.NewDefaultOptions(defaultClient);
    }

    /** Levels: the levels given at construction, unchanged. */
    function Levels(): (r: seq<Level>)
      ensures r == levels
    {
      levels
    }

    /** getLevel: the remapped value when the level map is non-nil and has the level, else its canonical name. */
    function GetLevel(level: Level): (name: string)
      requires opts != null
      reads opts
      ensures opts.LevelMap.Some? && level in opts.LevelMap.value ==> name == opts.LevelMap.value[level]
      ensures opts.LevelMap.None? ==> name == LevelName(level)
      ensures opts.LevelMap.Some? && level !in opts.LevelMap.value ==> name == LevelName(level)
    {
      if opts.LevelMap.Some? && level in opts.LevelMap.value then opts.LevelMap.value[level]
      else LevelName(level)
    }

    /** getClient: the configured client, or the default one when none is set. */
    function GetClient(defaultClient: Http.Client): (c: Http.Client)
      requires opts != null
      reads opts
      ensures opts.HttpClient != null ==> c == opts.HttpClient
      ensures opts.HttpClient == null ==> c == defaultClient
    {
      if opts.HttpClient != null then opts.HttpClient else defaultClient
    }

    /**
     * The stream-building part of Fire: one entry [time, message], then the
     * entry's fields, then the configured labels, then the level, in one batch.
     */
    method BuildBatch(entry: Entry) returns (b: Batch)
      requires opts != null
      ensures |b.Streams| == 1
      ensures b.Streams[0].entries == [[FormatInt(entry.time), entry.message]]
      ensures b.Streams[0].labels == StreamLabels(entry.data, opts.Labels, GetLevel(entry.level))
    {
      var stream := new Stream();
      stream.AddEntry(entry.time, entry.message);
      assert stream.Labels == map[];

      ApplyLabels(stream, entry.data);
      assert stream.Labels == entry.data;
      if opts.Labels.Some? {
        ApplyLabels(stream, opts.Labels.value);
      }
      assert stream.Labels == entry.data + opts.Labels.GetOr(map[]);

      var level := GetLevel(entry.level);
      stream.AddLabel(LevelLabel, level);
      assert stream.Labels == StreamLabels(entry.data, opts.Labels, level);

      b := new Batch();
      b.AddStream(stream);
    }

    /**
     * Fire up to the transport: builds the batch, addresses it to the endpoint
     * through the configured (or default) client, and turns what the transport
     * returned into Fire's result.
     */
    method Fire(entry: Entry, defaultClient: Http.Client, outcome: Http.Outcome)
      returns (request: PushRequest, err: Option<FireError>)
      requires opts != null
      ensures request.client == GetClient(defaultClient)
      ensures request.httpMethod == "POST" && request.url == endpoint
      ensures request.contentType == "application/json"
      ensures request.streams == [StreamValue(
        StreamLabels(entry.data, opts.Labels, GetLevel(entry.level)),
        [[FormatInt(entry.time), entry.message]])]
      ensures err.None? <==> outcome.Response? && IsSuccessStatusCode(outcome.statusCode)
      ensures err == CheckResponse(outcome)
    {
      var batch := BuildBatch(entry);
      request := PushRequest(GetClient(defaultClient), "POST", endpoint, "application/json", batch.Streams);
      err := CheckResponse(outcome);
    }
  }

  /**
   * A client of the hook: static labels {app: svc} and a level map
   * {error: my_error}. An info entry whose fields also carry "level" gets the
   * canonical name; a 201 is success.
   */
  method FireInfoExample(defaultClient: Http.Client) returns (request: PushRequest, err: Option<FireError>)
    ensures request.url == "http://x/loki/api/v1/push" && request.client == defaultClient
    ensures |request.streams| == 1
    ensures request.streams[0].labels == map["app" := "svc", "user" := "bob", "level" := "info"]
    ensures request.streams[0].entries == [["-42", "hi"]]
    ensures err == None
  {
    var opts := new LokiHookOptions.NewDefaultOptions(defaultClient);
    opts.Labels := Some(map["app" := "svc"]);
    opts.LevelMap := Some(map[ErrorLevel := "my_error"]);
    var hook := new LokiHook.NewLokiHookWithOpts("http://x", [InfoLevel, ErrorLevel], opts);
    var entry := Entry(-42, InfoLevel, "hi", map["user" := "bob", "level" := "x"]);
    assert hook.GetLevel(InfoLevel) == "info";
    assert entry.data + opts.Labels.value == map["user" := "bob", "level" := "x", "app" := "svc"];
    assert map["user" := "bob", "level" := "x", "app" := "svc"][LevelLabel := "info"]
        == map["app" := "svc", "user" := "bob", "level" := "info"];
    assert FormatNat(4) == "4";
    assert FormatNat(42) == "42";
    assert FormatInt(-42) == "-42";
    request, err := hook.Fire(entry, defaultClient, Http.Response(201, Http.BodyText("")));
  }

  /**
   * The same configuration with an error entry: the level label is the
   * remapped value, and a 500 with body "oops" is an error carrying both.
   */
  method FireErrorExample(defaultClient: Http.Client) returns (request: PushRequest, err: Option<FireError>)
    ensures |request.streams| == 1
    ensures request.streams[0].labels == map["app" := "svc", "level" := "my_error"]
    ensures err == Some(PushRejected(500, "oops"))
  {
    var opts := new LokiHookOptions.NewDefaultOptions(defaultClient);
    opts.Labels := Some(map["app" := "svc"]);
    opts.LevelMap := Some(map[ErrorLevel := "my_error"]);
    var hook := new LokiHook.NewLokiHookWithOpts("http://x", [InfoLevel, ErrorLevel], opts);
    var entry := Entry(0, ErrorLevel, "boom", map[]);
    assert hook.GetLevel(ErrorLevel) == "my_error";
    assert (entry.data + opts.Labels.value)[LevelLabel := "my_error"] == map["app" := "svc", "level" := "my_error"];
    request, err := hook.Fire(entry, defaultClient, Http.Response(500, Http.BodyText("oops")));
  }
}
