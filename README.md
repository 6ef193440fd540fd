# lokirus in Dafny

A model of the core of lokirus, a logrus hook that ships each log entry to
Loki. The model covers three parts.

- **The Loki payload** (`internal/loki`). A stream is a label map plus an
  ordered list of `[timestamp, line]` pairs. A batch is an ordered list of
  streams. Both are classes whose methods update their fields in place.
- **The hook** (`logrusloki.go`). `Fire` builds one stream from one entry. It
  first appends the entry's `[time, message]`. It then writes labels in a
  fixed order:
  1. the entry's fields;
  2. the configured labels, which win on a shared key;
  3. `"level"`, which always wins.

  The stream goes into a one-stream batch. The batch is addressed to
  `host + "/loki/api/v1/push"` through the configured client, or through the
  default client when none is set. The transport's answer is then classified:
  a 2xx status means success, and any other status is an error.
- **The fluent options builder** (`loki_hook_options.go`). It is a record of
  settings with defaults. Each `With*` setter replaces one field and returns
  the same object.

The two files define two different option types. Both are modelled, as
`LogrusLoki.LokiHookOptions` and `Lokirus.LokiHookOptions`.

Go's nil maps, nil funcs and nil pointers are `None` or `null` wherever the
source tells them apart from empty values. Examples are the nil checks on the
level map and on the labels, and setters that accept nil. Timestamps are
Unix nanoseconds in Go's `int64` range. The label map of an entry holds field
values that are already rendered as text.

`Levels` returns exactly the level slice given at construction. It does not
fall back to "all levels" when that slice is empty.

Modules, one per file:

- `wrappers.dfy`: `Option`.
- `strconv.dfy`: the base-10 timestamp rendering and a reference decimal
  reader.
- `logrus.dfy`: the logging library's level, entry and formatter types.
- `http.dfy`: an opaque client and the outcome of one round trip.
- `loki.dfy`: `Stream` and `Batch`.
- `logrusloki.dfy`: the hook.
- `lokirus.dfy`: the builder.

## Model

| member | source | states |
|---|---|---|
| Strconv.FormatInt | internal/loki/stream.go:25 | The timestamp text is non-empty. It starts with `'-'` exactly when the value is negative. All its other characters are digits. The digits have no leading zero, for negative values as well as for positive ones. |
| Strconv.ParseFormatInt | internal/loki/stream.go:25 | Reading the timestamp text back as a decimal integer gives the original nanosecond value. |
| Strconv.FormatIntInjective | internal/loki/stream.go:25 | Two different timestamps never render to the same text. |
| Loki.Stream.constructor | internal/loki/stream.go:13-18 | A new stream has an empty label map and no entries. |
| Loki.Stream.AddLabel | internal/loki/stream.go:20-22 | Afterwards `Labels[key] == value`, so a later write to the same key wins. Every other key keeps its presence and value. `Entries` is unchanged. |
| Loki.Stream.AddEntry | internal/loki/stream.go:24-27 | Exactly one entry is appended and the earlier ones stay in order. The new entry has two elements: the time text, which parses back to `t`, and the line unchanged. `Labels` is unchanged. |
| Loki.Batch.constructor | internal/loki/batch.go:7-9 | A new batch has no streams. |
| Loki.Batch.AddStream | internal/loki/batch.go:11-13 | The batch grows by exactly one. The earlier streams are kept in order. The last element is the added stream's value. |
| Loki.BatchOf | internal/loki/batch.go:7-13 | Adding streams s1..sn to a new batch, one `AddStream` at a time, yields exactly their values in that order. |
| LogrusLoki.Endpoint | logrusloki.go:51 | The endpoint is the host text followed by `/loki/api/v1/push`, with nothing in between. |
| LogrusLoki.IsSuccessStatusCode | logrusloki.go:148-150 | A status code is a success exactly when it is in the 2xx class (`code / 100 == 2`). |
| LogrusLoki.StreamLabels | logrusloki.go:70-85 | The label keys are the field keys, the configured keys and `"level"`. `"level"` holds the level value whatever the fields or the configured labels say. A configured label wins over a field with the same key. A key that only a field has keeps the field's value. A nil label map adds nothing. |
| LogrusLoki.ApplyLabels | logrusloki.go:72-81 | One `range` loop of `AddLabel` calls, taking keys in an arbitrary order, ends with the source map written over the earlier labels. `Entries` is untouched. |
| LogrusLoki.ApplyInAnyOrder | logrusloki.go:72-81 | Every order of writes that visits each key of the source map ends in the same map. So the labels do not depend on Go's map iteration order. |
| LogrusLoki.CheckResponse | logrusloki.go:106-121 | `Fire` succeeds exactly on a response with a 2xx status. A transport error is passed on. A non-2xx response yields its status and body text, or the error from reading that body. |
| LogrusLoki.LokiHookOptions.NewDefaultOptions | logrusloki.go:29-35 | The default options have an empty level map, empty labels and the default client. |
| LogrusLoki.LokiHook.NewLokiHookWithOpts | logrusloki.go:49-57 | The endpoint is `Endpoint(host)`. The levels and options are the ones given; nil options are accepted, as in Go. |
| LogrusLoki.LokiHook.NewLokiHook | logrusloki.go:44-47 | Like `NewLokiHookWithOpts`, with fresh default options. |
| LogrusLoki.LokiHook.Levels | logrusloki.go:124-127 | Returns the levels given at construction, unchanged. |
| LogrusLoki.LokiHook.GetLevel | logrusloki.go:129-138 | Returns the remapped value when the level map is non-nil and contains the level. Returns the canonical level name when the map is nil or lacks the level. It requires non-nil options, because Go dereferences them (logrusloki.go:130). |
| LogrusLoki.LokiHook.GetClient | logrusloki.go:140-146 | Returns the configured client when one is set, and the default client otherwise. It requires non-nil options, because Go dereferences them (logrusloki.go:141). |
| LogrusLoki.LokiHook.BuildBatch | logrusloki.go:62-89 | The batch has exactly one stream. That stream has exactly one entry, `[time text, message]`. Its labels are `StreamLabels` of the entry's fields, the configured labels and `GetLevel` of the entry's level. |
| LogrusLoki.LokiHook.Fire | logrusloki.go:59-122 | The request is a `POST` of that one-stream batch as `application/json`, sent to the endpoint through `GetClient`. The result is an error exactly when the transport's outcome is not a 2xx response. |
| LogrusLoki.FireInfoExample | logrusloki.go:60-121 | Static labels `{app: svc}` and an info entry whose fields include `level` produce the labels `{app: svc, user: bob, level: info}`. The entry is `["-42", "hi"]`, the URL is `http://x/loki/api/v1/push`, and a 201 is a success. |
| LogrusLoki.FireErrorExample | logrusloki.go:60-121 | With the level map `{error: my_error}`, an error entry gets `level: my_error`. A 500 with body `oops` yields an error that carries both. |
| Lokirus.DefaultDynamicLabelProvider | loki_hook_options.go:13-15 | Returns an empty, non-nil label map for every entry. |
| Lokirus.LokiHookOptions.NewLokiHookOptions | loki_hook_options.go:87-96 | The defaults are an empty level map and empty static labels. The label provider returns empty labels for every entry. The client is the default client, the formatter is a new one, and there are no basic-auth credentials. |
| Lokirus.LokiHookOptions.LevelMap | loki_hook_options.go:98-100 | Returns exactly the stored level map. |
| Lokirus.LokiHookOptions.BasicAuth | loki_hook_options.go:102-104 | Returns exactly the stored credentials; none means no credentials are used. |
| Lokirus.LokiHookOptions.StaticLabels | loki_hook_options.go:106-108 | Returns exactly the stored static labels. |
| Lokirus.LokiHookOptions.DynamicLabelProvider | loki_hook_options.go:110-112 | Returns exactly the stored label provider. |
| Lokirus.LokiHookOptions.HttpClient | loki_hook_options.go:114-116 | Returns exactly the stored client. |
| Lokirus.LokiHookOptions.Formatter | loki_hook_options.go:118-120 | Returns exactly the stored formatter. |
| Lokirus.LokiHookOptions.WithBasicAuth | loki_hook_options.go:122-128 | Credentials with exactly that username and password are set. Every other field is unchanged. Returns the same object. |
| Lokirus.LokiHookOptions.WithLevelMap | loki_hook_options.go:130-133 | The level map becomes the given one, nil included. Every other field is unchanged. Returns the same object. |
| Lokirus.LokiHookOptions.WithStaticLabels | loki_hook_options.go:135-138 | The static labels become the given ones. Every other field is unchanged. Returns the same object. |
| Lokirus.LokiHookOptions.WithDynamicLabelProvider | loki_hook_options.go:140-143 | The label provider becomes the given one. Every other field is unchanged. Returns the same object. |
| Lokirus.LokiHookOptions.WithHttpClient | loki_hook_options.go:145-148 | The client becomes the given one. Every other field is unchanged. Returns the same object. |
| Lokirus.LokiHookOptions.WithFormatter | loki_hook_options.go:150-153 | The formatter becomes the given one. Every other field is unchanged. Returns the same object. |
| Lokirus.ConfigureExample | loki_hook_options.go:122-153 | Chained setters act on one object. A setter called twice keeps only its last value. Fields that no setter touched keep their defaults: the default client, a label provider that returns empty labels for every entry, and a new formatter. |

## Left out

- JSON marshalling of the batch (logrusloki.go:91-95) is left out because it is `encoding/json` reflection. The field names `streams`, `stream` and `values` are kept as constants. With string-only maps and lists, marshalling cannot fail.
- `http.NewRequest` (logrusloki.go:98-101) is left out. The request is a `PushRequest` value, so its failure on an endpoint that does not parse as a URL is not modelled.
- The HTTP exchange itself is network I/O. What `Client.Do` and reading the body returned is a parameter of `Fire`.
- The text of the error message (logrusloki.go:118) is not modelled; the error carries the status code in place of the status text. `resp.Body.Close` is not modelled either.
- `time.Time.UnixNano` is not modelled; the entry carries the nanosecond count as an `int64`.
- `fmt.Sprintf("%s", v)` on arbitrary field values is not modelled; an entry's fields are already text.
- `logrus.Formatter` and `http.Client` are opaque classes. `http.DefaultClient` is a parameter, because a process-wide object cannot be a Dafny constant.
- The level names come from the logging library's `Level.String` and are not part of this model. The model uses "panic", "fatal", "error", "warning", "info", "debug", "trace", and "unknown" for any other level.
- `Fire` in logrusloki.go never uses a formatter, a dynamic label provider or basic-auth credentials. Those exist only on the builder's option type, so the model does not attach them to a request either.
- Loki.Batch.AddStream: Go copies the stream struct into the batch, and the copy shares its label map with the stream. The model stores a value snapshot, so a later write to the stream would not show in the batch. `Fire` never writes to the stream after adding it.
- Lokirus.LokiHookOptions.WithLevelMap, Lokirus.LokiHookOptions.WithStaticLabels, Lokirus.LokiHookOptions.LevelMap, Lokirus.LokiHookOptions.StaticLabels and Lokirus.LokiHookOptions.BasicAuth: Go stores and hands out the caller's map or credentials pointer, not a copy, so a later write through any alias changes the options. The model stores map values and a credentials datatype, so that sharing is not captured. The same holds for the `LevelMap` and `Labels` fields of LogrusLoki.LokiHookOptions, which `Fire` reads on every call.
- LogrusLoki.LokiHook.Fire, LogrusLoki.LokiHook.BuildBatch, LogrusLoki.LokiHook.GetLevel and LogrusLoki.LokiHook.GetClient require non-nil options. The hook may be built with nil options (logrusloki.go:50), but Go then panics on the nil dereference (logrusloki.go:77, :130, :141); the panic is not modelled as an outcome.
- Concurrent calls of `Fire` are not modelled; nothing in the source synchronises.
- logrusloki_test.go is not modelled, because its tests are empty. example/main.go is not modelled, because it is demo wiring.
