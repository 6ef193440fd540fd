/**
 * The fluent options builder of loki_hook_options.go: a record of settings
 * with defaults, read through getters and replaced one field at a time by
 * With* setters that return the same object for chaining.
 */
module Lokirus {
  import opened Wrappers
  import opened Logrus
  import Http

  /** LevelMap and Labels are Go maps; None stands for a nil map. */
  type LevelMap = map<Level, string>
  type Labels = map<string, string>

  /** DynamicLabelProviderFunc: the labels to add for one entry. */
  type DynamicLabelProviderFunc = Entry -> Option<Labels>

  datatype BasicAuthCredentials = BasicAuthCredentials(Username: string, Password: string)

  /** defaultDynamicLabelProvider: a new empty (non-nil) label map for every entry. */
  function DefaultDynamicLabelProvider(entry: Entry): (labels: Option<Labels>)
    ensures labels.Some? && |labels.value| == 0
  {
    Some(map[])
  }

  /**
   * The lokiHookOptions struct. A nil func is None, a nil client or
   * formatter null, absent credentials None.
   */
  class LokiHookOptions {
    var levelMap: Option<LevelMap>
    var staticLabels: Option<Labels>
    var dynamicLabelProvider: Option<DynamicLabelProviderFunc>
    var httpClient: Http.Client?
    var formatter: Logrus.Formatter?
    var basicAuthCredentials: Option<BasicAuthCredentials>

    /**
     * NewLokiHookOptions: empty level map and static labels, the default label
     * provider, the default client, a new text formatter and no credentials.
     */
    constructor NewLokiHookOptions(defaultClient: Http.Client)
      ensures levelMap == Some(map[]) && staticLabels == Some(map[])
      ensures dynamicLabelProvider.Some?
      ensures forall e :: dynamicLabelProvider.value(e) == Some(map[])
      ensures httpClient == defaultClient
      ensures formatter != null && fresh(formatter)
      ensures basicAuthCredentials.None?
    {
      levelMap := Some(map[]);
      staticLabels := Some(map[]);
      dynamicLabelProvider := Some(DefaultDynamicLabelProvider);
      httpClient := defaultClient;
      formatter := new Logrus.Formatter();
      basicAuthCredentials := None;
    }

    function LevelMap(): (m: Option<LevelMap>)
      reads this
      ensures m == levelMap
    {
      levelMap
    }

    function BasicAuth(): (c: Option<BasicAuthCredentials>)
      reads this
      ensures c == basicAuthCredentials
    {
      basicAuthCredentials
    }

    function StaticLabels(): (s: Option<Labels>)
      reads this
      ensures s == staticLabels
    {
      staticLabels
    }

    function DynamicLabelProvider(): (p: Option<DynamicLabelProviderFunc>)
      reads this
      ensures p == dynamicLabelProvider
    {
      dynamicLabelProvider
    }

    function HttpClient(): (c: Http.Client?)
      reads this
      ensures c == httpClient
    {
      httpClient
    }

    function Formatter(): (f: Logrus.Formatter?)
      reads this
      ensures f == formatter
    {
      formatter
    }

    method WithBasicAuth(username: string, password: string) returns (self: LokiHookOptions)
      modifies this
      ensures self == this
      ensures basicAuthCredentials == Some(BasicAuthCredentials(username, password))
      ensures levelMap == old(levelMap) && staticLabels == old(staticLabels)
      ensures dynamicLabelProvider == old(dynamicLabelProvider)
      ensures httpClient == old(httpClient) && formatter == old(formatter)
    {
      basicAuthCredentials := Some(BasicAuthCredentials(username, password));
      self := this;
    }

    method WithLevelMap(levelMap: Option<LevelMap>) returns (self: LokiHookOptions)
      modifies this
      ensures self == this
      ensures this.levelMap == levelMap
      ensures staticLabels == old(staticLabels)
      ensures dynamicLabelProvider == old(dynamicLabelProvider)
      ensures httpClient == old(httpClient) && formatter == old(formatter)
      ensures basicAuthCredentials == old(basicAuthCredentials)
    {
      this.levelMap := levelMap;
      self := this;
    }

    method WithStaticLabels(staticLabels: Option<Labels>) returns (self: LokiHookOptions)
      modifies this
      ensures self == this
      ensures this.staticLabels == staticLabels
      ensures levelMap == old(levelMap)
      ensures dynamicLabelProvider == old(dynamicLabelProvider)
      ensures httpClient == old(httpClient) && formatter == old(formatter)
      ensures basicAuthCredentials == old(basicAuthCredentials)
    {
      this.staticLabels := staticLabels;
      self := this;
    }

    method WithDynamicLabelProvider(dynamicLabelProvider: Option<DynamicLabelProviderFunc>) returns (self: LokiHookOptions)
      modifies this
      ensures self == this
      ensures this.dynamicLabelProvider == dynamicLabelProvider
      ensures levelMap == old(levelMap) && staticLabels == old(staticLabels)
      ensures httpClient == old(httpClient) && formatter == old(formatter)
      ensures basicAuthCredentials == old(basicAuthCredentials)
    {
      this.dynamicLabelProvider := dynamicLabelProvider;
      self := this;
    }

    method WithHttpClient(httpClient: Http.Client?) returns (self: LokiHookOptions)
      modifies this
      ensures self == this
      ensures this.httpClient == httpClient
      ensures levelMap == old(levelMap) && staticLabels == old(staticLabels)
      ensures dynamicLabelProvider == old(dynamicLabelProvider)
      ensures formatter == old(formatter)
      ensures basicAuthCredentials == old(basicAuthCredentials)
    {
      this.httpClient := httpClient;
      self := this;
    }

    method WithFormatter(formatter: Logrus.Formatter?) returns (self: LokiHookOptions)
      modifies this
      ensures self == this
      ensures this.formatter == formatter
      ensures levelMap == old(levelMap) && staticLabels == old(staticLabels)
      ensures dynamicLabelProvider == old(dynamicLabelProvider)
      ensures httpClient == old(httpClient)
      ensures basicAuthCredentials == old(basicAuthCredentials)
    {
      this.formatter := formatter;
      self := this;
    }
  }

  /**
   * A client of the builder, chaining setters the way a program configures the
   * hook: a setter called twice keeps only its last value, and the fields no
   * setter touched keep their defaults.
   */
  method ConfigureExample(defaultClient: Http.Client) returns (opts: LokiHookOptions)
    ensures fresh(opts)
    ensures opts.LevelMap() == Some(map[PanicLevel := "critical"])
    ensures opts.StaticLabels() == Some(map["app" := "example", "environment" := "development"])
    ensures opts.BasicAuth() == Some(BasicAuthCredentials("user", "secret"))
    ensures opts.HttpClient() == defaultClient
    ensures opts.DynamicLabelProvider().Some?
    ensures forall e :: opts.DynamicLabelProvider().value(e) == Some(map[])
    ensures opts.Formatter() != null && fresh(opts.Formatter())
  {
    opts := new LokiHookOptions.NewLokiHookOptions(defaultClient);
    var o := opts.WithLevelMap(Some(map[ErrorLevel := "my_error"]));
    o := o.WithLevelMap(Some(map[PanicLevel := "critical"]));
    o := o.WithStaticLabels(Some(map["app" := "example", "environment" := "development"]));
    o := o.WithBasicAuth("admin", "admin");
    o := o.WithBasicAuth("user", "secret");
  }
}
