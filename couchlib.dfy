/**
 * The request-assembly core of the CouchDB client: a client configured
 * once from its construction options, the normalisation `run` applies to
 * a request's options record before handing it to the transport, and the
 * request helpers built on it.
 */
module Couchlib {
  import opened Wrappers
  import opened JsValues
  import opened Paths

  const DefaultHost: string := "127.0.0.1"
  const DefaultPort: string := "5984"
  const InitErrorMessage: string := "Couchlib can only be initialised with an object"
  /** The media type `run` defaults both JSON headers to (spelled as the library spells it). */
  const JsonMediaType: string := "Application/json"

  /**
   * The construction options after `options = options || {}` and the
   * check that `Object.prototype.toString` names them an `Object`: only a
   * plain object passes (arrays, strings, numbers and `true` are refused).
   */
  function ConstructorFields(options: Value): (r: Result<map<string, Value>, Exception>)
    ensures r.Success? <==> !Truthy(options) || options.Obj?
    ensures r.Failure? ==> r.error == Error(InitErrorMessage)
    ensures !Truthy(options) ==> r.Success? && r.value == map[]
    ensures options.Obj? ==> r.Success? && r.value == options.fields
  {
    var o := if Truthy(options) then options else Obj(map[]);
    if o.Obj? then Success(o.fields) else Failure(Error(InitErrorMessage))
  }

  /** The instance settings `run` falls back on. */
  datatype Settings = Settings(host: Value, port: Value, user: Option<Value>, password: Option<Value>)

  /** `this.user && this.password`: both were given, and both are truthy. */
  predicate HasCredentials(s: Settings) {
    s.user.Some? && Truthy(s.user.value) && s.password.Some? && Truthy(s.password.value)
  }

  /** `this.user + ":" + this.password`. */
  function Credential(s: Settings): (r: string)
    requires HasCredentials(s)
    ensures var u := ToJsString(s.user.value);
      && |r| == |u| + 1 + |ToJsString(s.password.value)|
      && r[..|u|] == u && r[|u|] == ':' && r[|u| + 1..] == ToJsString(s.password.value)
  {
    ToJsString(s.user.value) + ":" + ToJsString(s.password.value)
  }

  /** The headers `run` installs when a request with data has none. */
  function JsonHeaders(): Value {
    Obj(map["Accept" := Str(JsonMediaType), "Content-Type" := Str(JsonMediaType)])
  }

  /** Keys other than these three are the same in `r` as in `p`. */
  ghost predicate SameOutside(p: map<string, Value>, r: map<string, Value>, a: string, b: string, c: string) {
    forall k :: k != a && k != b && k != c ==> (k in r <==> k in p) && (k in r ==> r[k] == p[k])
  }

  /**
   * First step of `run`: `host`, `port` and `auth` come from the instance
   * when the caller left the key out and the instance value is truthy; a
   * key the caller supplied is never overwritten.
   */
  function FillFromInstance(p: map<string, Value>, s: Settings): (r: map<string, Value>)
    ensures "host" in p ==> "host" in r && r["host"] == p["host"]
    ensures "host" !in p ==> ("host" in r <==> Truthy(s.host)) && ("host" in r ==> r["host"] == s.host)
    ensures "port" in p ==> "port" in r && r["port"] == p["port"]
    ensures "port" !in p ==> ("port" in r <==> Truthy(s.port)) && ("port" in r ==> r["port"] == s.port)
    ensures "auth" in p ==> "auth" in r && r["auth"] == p["auth"]
    ensures "auth" !in p ==>
      ("auth" in r <==> HasCredentials(s)) && ("auth" in r ==> r["auth"] == Str(Credential(s)))
    ensures SameOutside(p, r, "host", "port", "auth")
  {
    var p1 := if "host" !in p && Truthy(s.host) then p["host" := s.host] else p;
    var p2 := if "port" !in p1 && Truthy(s.port) then p1["port" := s.port] else p1;
    if "auth" !in p2 && HasCredentials(s) then p2["auth" := Str(Credential(s))] else p2
  }

  /** Second step: a `data` entry, when present, is replaced by its JSON text. */
  function SerializeData(p: map<string, Value>, json: Serializer): (r: map<string, Value>)
    ensures r.Keys == p.Keys
    ensures "data" in p ==> r["data"] == Stringify(json, p["data"])
    ensures forall k :: k in p && k != "data" ==> r[k] == p[k]
  {
    if "data" in p then p["data" := Stringify(json, p["data"])] else p
  }

  /**
   * The headers after the defaulting for a request that carries data and
   * already has a headers object `h`. A missing `Accept` is set; a missing
   * `Content-Type` sets `Accept` again instead, so `Content-Type` is never
   * added to caller headers.
   */
  function DefaultCallerHeaders(h: Value): (r: Value)
    requires IsObject(h)
    ensures IsObject(r)
    ensures HasProperty(r, "Accept")
    ensures Property(r, "Accept") ==
      (if HasProperty(h, "Accept") && HasProperty(h, "Content-Type") then Property(h, "Accept")
       else Str(JsonMediaType))
    ensures HasProperty(r, "Content-Type") == HasProperty(h, "Content-Type")
    ensures Property(r, "Content-Type") == Property(h, "Content-Type")
    ensures forall k :: IsNamedKey(k) && k != "Accept" ==>
      HasProperty(r, k) == HasProperty(h, k) && Property(r, k) == Property(h, k)
    ensures h.Obj? ==> r.Obj? && forall k :: k != "Accept" ==>
      (k in r.fields <==> k in h.fields) && (k in r.fields ==> r.fields[k] == h.fields[k])
    ensures h.Arr? ==> r.Arr? && r.elems == h.elems && forall k :: k != "Accept" ==>
      (k in r.props <==> k in h.props) && (k in r.props ==> r.props[k] == h.props[k])
  {
    var h1 := if !HasProperty(h, "Accept") then WithProperty(h, "Accept", Str(JsonMediaType)) else h;
    if !HasProperty(h1, "Content-Type") then WithProperty(h1, "Accept", Str(JsonMediaType)) else h1
  }

  /**
   * Third step: header defaulting, only when the request has `data`. The
   * `in` test on a headers value that is not an object throws `TypeError`.
   */
  function DefaultHeaders(p: map<string, Value>): (r: Result<map<string, Value>, Exception>)
    ensures "data" !in p ==> r == Success(p)
    ensures "data" in p && "headers" !in p ==> r == Success(p["headers" := JsonHeaders()])
    ensures "data" in p && "headers" in p && !IsObject(p["headers"]) ==> r == Failure(TypeError)
    ensures "data" in p && "headers" in p && IsObject(p["headers"]) ==>
      r == Success(p["headers" := DefaultCallerHeaders(p["headers"])])
  {
    if "data" !in p then Success(p)
    else if "headers" !in p then Success(p["headers" := JsonHeaders()])
    else if !IsObject(p["headers"]) then Failure(TypeError)
    else Success(p["headers" := DefaultCallerHeaders(p["headers"])])
  }

  /** `options` as they stand once `run` reaches the header step. */
  function Prepared(p: map<string, Value>, s: Settings, json: Serializer): (r: map<string, Value>)
    ensures ("data" in r <==> "data" in p) && ("headers" in r <==> "headers" in p)
    ensures "data" in p ==> r["data"] == Stringify(json, p["data"])
    ensures "headers" in p ==> r["headers"] == p["headers"]
  {
    SerializeData(FillFromInstance(p, s), json)
  }

  /** `options` as `run` hands them to the transport, or the exception it throws. */
  function Normalize(p: map<string, Value>, s: Settings, json: Serializer): (r: Result<map<string, Value>, Exception>)
    ensures r.Failure? <==> "data" in p && "headers" in p && !IsObject(p["headers"])
    ensures r.Failure? ==> r.error == TypeError
  {
    DefaultHeaders(Prepared(p, s, json))
  }

  /**
   * `if (options.data) request.write(options.data)`: the body written, if
   * any. Once `data` is serialised it is JSON text, and that text is the body.
   */
  function BodyOf(p: map<string, Value>): (r: Option<string>)
    ensures r.Some? <==> "data" in p && Truthy(p["data"])
    ensures "data" in p && p["data"].Str? && p["data"].s != "" ==> r == Some(p["data"].s)
  {
    if "data" in p && Truthy(p["data"]) then Some(ToJsString(p["data"])) else None
  }

  /** What `run` hands to `http.request`, and the body it writes. */
  datatype Outbound = Outbound(options: map<string, Value>, body: Option<string>)

  /**
   * The instance's `host`, `port` and `auth` as `run` fills them into a
   * request literal that has none of the three.
   */
  predicate CarriesInstanceEntries(o: map<string, Value>, s: Settings) {
    && ("host" in o <==> Truthy(s.host)) && ("host" in o ==> o["host"] == s.host)
    && ("port" in o <==> Truthy(s.port)) && ("port" in o ==> o["port"] == s.port)
    && ("auth" in o <==> HasCredentials(s)) && ("auth" in o ==> o["auth"] == Str(Credential(s)))
  }

  /** The literal `{"path": path, "method": verb}` with `"data": data` when given. */
  function RequestLiteral(verb: string, path: string, data: Option<Value>): map<string, Value> {
    var p := map["method" := Str(verb), "path" := Str(path)];
    if data.Some? then p["data" := data.value] else p
  }

  /** The keys a request built by one of the helpers can carry. */
  const RequestKeys: set<string> := {"method", "path", "data", "headers", "host", "port", "auth"}

  /**
   * What a helper that builds a fresh request literal sends: its own
   * method and path, the instance defaults, and for a request with data
   * the serialised data, the two JSON headers and that text as the body
   * (none when the data is `undefined`); nothing else.
   */
  predicate Sends(o: Outbound, s: Settings, verb: string, path: string, data: Option<Value>, json: Serializer) {
    var opts := o.options;
    && (forall k :: k in opts ==> k in RequestKeys)
    && "method" in opts && opts["method"] == Str(verb)
    && "path" in opts && opts["path"] == Str(path)
    && CarriesInstanceEntries(opts, s)
    && ("data" in opts <==> data.Some?) && ("headers" in opts <==> data.Some?)
    && (data.Some? ==> opts["data"] == Stringify(json, data.value) && opts["headers"] == JsonHeaders())
    && o.body == if data.Some? && !data.value.Undefined? then Some(json(data.value)) else None
  }

  /** A request literal just before the header step: the instance entries are in, `data` is serialised. */
  lemma PreparedLiteral(verb: string, path: string, data: Option<Value>, s: Settings, json: Serializer)
    ensures var prepared := Prepared(RequestLiteral(verb, path, data), s, json);
      && (forall k :: k in prepared ==> k in RequestKeys)
      && CarriesInstanceEntries(prepared, s)
      && "method" in prepared && prepared["method"] == Str(verb)
      && "path" in prepared && prepared["path"] == Str(path)
      && ("data" in prepared <==> data.Some?) && "headers" !in prepared
      && (data.Some? ==> prepared["data"] == Stringify(json, data.value))
  {
    var lit := RequestLiteral(verb, path, data);
    assert "host" !in lit && "port" !in lit && "auth" !in lit && "headers" !in lit;
    assert forall k :: k in lit ==> k in RequestKeys;
    FilledLiteral(lit, s);
    SerializedLiteral(FillFromInstance(lit, s), json);
  }

  /** Filling a literal without `host`, `port`, `auth` brings in the instance values and nothing else. */
  lemma FilledLiteral(lit: map<string, Value>, s: Settings)
    requires "host" !in lit && "port" !in lit && "auth" !in lit
    requires forall k :: k in lit ==> k in RequestKeys
    ensures var filled := FillFromInstance(lit, s);
      && (forall k :: k in filled ==> k in RequestKeys)
      && CarriesInstanceEntries(filled, s)
      && (forall k :: k in lit ==> k in filled && filled[k] == lit[k])
      && ("data" in filled <==> "data" in lit) && ("headers" in filled <==> "headers" in lit)
  {
    assert SameOutside(lit, FillFromInstance(lit, s), "host", "port", "auth");
  }

  /** Serialising leaves the keys and every entry but `data` alone. */
  lemma SerializedLiteral(filled: map<string, Value>, json: Serializer)
    ensures var prepared := SerializeData(filled, json);
      && prepared.Keys == filled.Keys
      && (forall k :: k in filled && k != "data" ==> prepared[k] == filled[k])
      && ("data" in filled ==> prepared["data"] == Stringify(json, filled["data"]))
  {
  }

  /** Normalising a request literal of one of the helpers never throws and yields what Sends describes. */
  lemma NormalizeRequestLiteral(verb: string, path: string, data: Option<Value>, s: Settings, json: Serializer)
    ensures Normalize(RequestLiteral(verb, path, data), s, json).Success?
    ensures var o := Normalize(RequestLiteral(verb, path, data), s, json).value;
      Sends(Outbound(o, BodyOf(o)), s, verb, path, data, json)
  {
    PreparedLiteral(verb, path, data, s, json);
    var prepared := Prepared(RequestLiteral(verb, path, data), s, json);
    if data.Some? {
      HeadersForLiteral(prepared, verb, path, data.value, s, json);
    }
  }

  /** The header step on a prepared literal with data: only `headers` is added. */
  lemma HeadersForLiteral(prepared: map<string, Value>, verb: string, path: string, data: Value, s: Settings, json: Serializer)
    requires forall k :: k in prepared ==> k in RequestKeys
    requires CarriesInstanceEntries(prepared, s)
    requires "method" in prepared && prepared["method"] == Str(verb)
    requires "path" in prepared && prepared["path"] == Str(path)
    requires "data" in prepared && "headers" !in prepared && prepared["data"] == Stringify(json, data)
    ensures DefaultHeaders(prepared).Success?
    ensures var o := DefaultHeaders(prepared).value;
      Sends(Outbound(o, BodyOf(o)), s, verb, path, Some(data), json)
  {
    var o := prepared["headers" := JsonHeaders()];
    assert DefaultHeaders(prepared) == Success(o);
    assert "host" in o <==> "host" in prepared;
    assert "port" in o <==> "port" in prepared;
    assert "auth" in o <==> "auth" in prepared;
    assert CarriesInstanceEntries(o, s);
  }

  /** A caller-supplied `host`, `port` or `auth` reaches the transport unchanged. */
  lemma CallerSettingsWin(p: map<string, Value>, s: Settings, json: Serializer, key: string)
    requires key in {"host", "port", "auth"} && key in p
    requires Normalize(p, s, json).Success?
    ensures key in Normalize(p, s, json).value && Normalize(p, s, json).value[key] == p[key]
  {
    var filled := FillFromInstance(p, s);
    assert key in filled && filled[key] == p[key];
    var prepared := SerializeData(filled, json);
    assert key in prepared && prepared[key] == p[key];
    HeaderStepKeeps(prepared, key);
  }

  /** The header step changes no entry but `headers`. */
  lemma HeaderStepKeeps(p: map<string, Value>, key: string)
    requires key != "headers" && key in p
    requires DefaultHeaders(p).Success?
    ensures key in DefaultHeaders(p).value && DefaultHeaders(p).value[key] == p[key]
  {
  }

  /** Without `data` nothing but `host`, `port` and `auth` is touched: headers and data stay as given. */
  lemma NoDataKeepsRequest(p: map<string, Value>, s: Settings, json: Serializer)
    requires "data" !in p
    ensures Normalize(p, s, json).Success?
    ensures var r := Normalize(p, s, json).value;
      "data" !in r && ("headers" in r <==> "headers" in p) &&
      ("headers" in p ==> r["headers"] == p["headers"]) &&
      BodyOf(r) == None
  {
  }

  /**
   * With `data` and caller headers, a caller's `Content-Type` is kept, and
   * a caller's `Accept` too as long as `Content-Type` is there; any other
   * header is untouched.
   */
  lemma CallerHeadersKept(p: map<string, Value>, s: Settings, json: Serializer)
    requires "data" in p && "headers" in p && IsObject(p["headers"])
    ensures Normalize(p, s, json).Success?
    ensures var h := p["headers"];
      var h' := Normalize(p, s, json).value["headers"];
      && IsObject(h')
      && HasProperty(h', "Content-Type") == HasProperty(h, "Content-Type")
      && Property(h', "Content-Type") == Property(h, "Content-Type")
      && (HasProperty(h, "Accept") && HasProperty(h, "Content-Type") ==>
            Property(h', "Accept") == Property(h, "Accept"))
      && (!HasProperty(h, "Accept") ==> Property(h', "Accept") == Str(JsonMediaType))
  {
  }

  /**
   * As written, a caller who sets only `Accept` has it replaced by the
   * JSON type, and still gets no `Content-Type`.
   */
  lemma AcceptOverwrittenWithoutContentType(other: string)
    ensures var h := Obj(map["Accept" := Str(other)]);
      DefaultCallerHeaders(h) == Obj(map["Accept" := Str(JsonMediaType)])
  {
    var h := Obj(map["Accept" := Str(other)]);
    assert HasProperty(h, "Accept") && !HasProperty(h, "Content-Type");
  }

  /**
   * The header defaulting the comments of `run` describe: each of the two
   * headers that is missing is set to the JSON type, a present one is kept.
   */
  function IntendedCallerHeaders(h: Value): (r: Value)
    requires IsObject(h)
    ensures IsObject(r) && HasProperty(r, "Accept") && HasProperty(r, "Content-Type")
    ensures Property(r, "Accept") == if HasProperty(h, "Accept") then Property(h, "Accept") else Str(JsonMediaType)
    ensures Property(r, "Content-Type") ==
      if HasProperty(h, "Content-Type") then Property(h, "Content-Type") else Str(JsonMediaType)
    ensures forall k :: IsNamedKey(k) && k != "Accept" && k != "Content-Type" ==>
      HasProperty(r, k) == HasProperty(h, k) && Property(r, k) == Property(h, k)
    ensures h.Obj? ==> r.Obj? && forall k :: k != "Accept" && k != "Content-Type" ==>
      (k in r.fields <==> k in h.fields) && (k in r.fields ==> r.fields[k] == h.fields[k])
    ensures h.Arr? ==> r.Arr? && r.elems == h.elems && forall k :: k != "Accept" && k != "Content-Type" ==>
      (k in r.props <==> k in h.props) && (k in r.props ==> r.props[k] == h.props[k])
  {
    var h1 := if !HasProperty(h, "Accept") then WithProperty(h, "Accept", Str(JsonMediaType)) else h;
    if !HasProperty(h1, "Content-Type") then WithProperty(h1, "Content-Type", Str(JsonMediaType)) else h1
  }

  /** The code and the intended defaulting agree exactly when the caller already sent `Content-Type`. */
  lemma IntendedAgreesWithContentType(h: Value)
    requires IsObject(h)
    ensures DefaultCallerHeaders(h) == IntendedCallerHeaders(h) <==> HasProperty(h, "Content-Type")
  {
    if !HasProperty(h, "Content-Type") {
      assert HasProperty(IntendedCallerHeaders(h), "Content-Type");
      assert !HasProperty(DefaultCallerHeaders(h), "Content-Type");
    }
  }

  /** A JavaScript object the caller owns and the library updates in place. */
  class JsObject {
    var props: map<string, Value>

    constructor (props: map<string, Value>)
      ensures this.props == props
    {
      this.props := props;
    }
  }

  /** A configured client, as `new couchlib(options)` builds it. */
  class Client {
    const host: Value
    const port: Value
    const user: Option<Value>
    const password: Option<Value>

    /** The instance setup for construction options that passed the object check. */
    constructor (fields: map<string, Value>)
      ensures host == if "host" in fields then fields["host"] else Str(DefaultHost)
      ensures port == if "port" in fields then fields["port"] else Str(DefaultPort)
      ensures user == if "user" in fields then Some(fields["user"]) else None
      ensures password == if "password" in fields then Some(fields["password"]) else None
    {
      host := if "host" in fields then fields["host"] else Str(DefaultHost);
      port := if "port" in fields then fields["port"] else Str(DefaultPort);
      user := if "user" in fields then Some(fields["user"]) else None;
      password := if "password" in fields then Some(fields["password"]) else None;
    }

    /** The instance fields as one value. */
    function Config(): Settings {
      Settings(host, port, user, password)
    }

    /**
     * `run`: normalises `opts` in place, field by field, and returns what
     * would be sent. When the header step throws, the fields set before it
     * stay set.
     */
    method Run(opts: JsObject, json: Serializer) returns (r: Result<Outbound, Exception>)
      modifies opts
      ensures Normalize(old(opts.props), Config(), json).Failure? ==>
        r == Failure(TypeError) && opts.props == Prepared(old(opts.props), Config(), json)
      ensures Normalize(old(opts.props), Config(), json).Success? ==>
        opts.props == Normalize(old(opts.props), Config(), json).value &&
        r == Success(Outbound(opts.props, BodyOf(opts.props)))
    {
      FillInstanceSettings(opts);
      if "data" in opts.props {
        opts.props := opts.props["data" := Stringify(json, opts.props["data"])];
      }
      var ok := SetDefaultHeaders(opts);
      if !ok {
        return Failure(TypeError);
      }
      var body: Option<string> := None;
      if "data" in opts.props && Truthy(opts.props["data"]) {
        body := Some(ToJsString(opts.props["data"]));
      }
      r := Success(Outbound(opts.props, body));
    }

    /** Lines 47-49 of `run`: `host`, `port`, then `auth`. */
    method FillInstanceSettings(opts: JsObject)
      modifies opts
      ensures opts.props == FillFromInstance(old(opts.props), Config())
    {
      ghost var p0 := opts.props;
      if "host" !in opts.props && Truthy(host) {
        opts.props := opts.props["host" := host];
      }
      ghost var p1 := opts.props;
      assert p1 == if "host" !in p0 && Truthy(host) then p0["host" := host] else p0;
      if "port" !in opts.props && Truthy(port) {
        opts.props := opts.props["port" := port];
      }
      ghost var p2 := opts.props;
      assert p2 == if "port" !in p1 && Truthy(port) then p1["port" := port] else p1;
      if "auth" !in opts.props && HasCredentials(Config()) {
        opts.props := opts.props["auth" := Str(ToJsString(user.value) + ":" + ToJsString(password.value))];
      }
      assert opts.props == if "auth" !in p2 && HasCredentials(Config()) then p2["auth" := Str(Credential(Config()))] else p2;
    }

    /**
     * The header defaulting of `run` for a request with data; `ok` is
     * false when the `in` test throws, and `opts` is then as it was.
     */
    method SetDefaultHeaders(opts: JsObject) returns (ok: bool)
      modifies opts
      ensures ok == DefaultHeaders(old(opts.props)).Success?
      ensures ok ==> opts.props == DefaultHeaders(old(opts.props)).value
      ensures !ok ==> opts.props == old(opts.props)
    {
      ok := true;
      if "data" in opts.props {
        if "headers" !in opts.props {
          opts.props := opts.props["headers" := JsonHeaders()];
        } else {
          var headers := opts.props["headers"];
          if !IsObject(headers) {
            return false;
          }
          if !HasProperty(headers, "Accept") {
            headers := WithProperty(headers, "Accept", Str(JsonMediaType));
            opts.props := opts.props["headers" := headers];
          }
          if !HasProperty(headers, "Content-Type") {
            headers := WithProperty(headers, "Accept", Str(JsonMediaType));
            opts.props := opts.props["headers" := headers];
          }
        }
      }
    }

    /** Builds the literal for one helper and runs it. */
    method Send(verb: string, path: string, data: Option<Value>, json: Serializer) returns (r: Result<Outbound, Exception>)
      ensures r.Success? && Sends(r.value, Config(), verb, path, data, json)
    {
      var opts := new JsObject(RequestLiteral(verb, path, data));
      NormalizeRequestLiteral(verb, path, data, Config(), json);
      r := Run(opts, json);
    }

    /** `get(path, callback)`: a GET of the normalised path whose data is `{}`, so it always writes a body. */
    method Get(path: string, json: Serializer) returns (r: Result<Outbound, Exception>)
      ensures r.Success? && Sends(r.value, Config(), "GET", NormalizePath(path), Some(Obj(map[])), json)
      ensures r.value.body == Some(json(Obj(map[])))
    {
      r := Send("GET", NormalizePath(path), Some(Obj(map[])), json);
    }

    /** `get(path, data, callback)`: a GET of the normalised path carrying `data`. */
    method GetWithData(path: string, data: Value, json: Serializer) returns (r: Result<Outbound, Exception>)
      ensures r.Success? && Sends(r.value, Config(), "GET", NormalizePath(path), Some(data), json)
    {
      r := Send("GET", NormalizePath(path), Some(data), json);
    }

    /** `put(path, data, callback)`. */
    method Put(path: string, data: Value, json: Serializer) returns (r: Result<Outbound, Exception>)
      ensures r.Success? && Sends(r.value, Config(), "PUT", NormalizePath(path), Some(data), json)
    {
      r := Send("PUT", NormalizePath(path), Some(data), json);
    }

    /** `post(path, data, callback)`. */
    method Post(path: string, data: Value, json: Serializer) returns (r: Result<Outbound, Exception>)
      ensures r.Success? && Sends(r.value, Config(), "POST", NormalizePath(path), Some(data), json)
    {
      r := Send("POST", NormalizePath(path), Some(data), json);
    }

    /**
     * `delete(path, data, callback)`: marks the caller's `data` with
     * `_deleted: true` in place, then sends it with `path` as given.
     */
    method Delete(path: string, data: JsObject, json: Serializer) returns (r: Result<Outbound, Exception>)
      modifies data
      ensures data.props == old(data.props)["_deleted" := Bool(true)]
      ensures r.Success? && Sends(r.value, Config(), "DELETE", path, Some(Obj(data.props)), json)
    {
      data.props := data.props["_deleted" := Bool(true)];
      r := Send("DELETE", path, Some(Obj(data.props)), json);
    }

    /** `create(dbname, callback)`: a PUT of the normalised name, without data, headers or body. */
    method Create(dbname: string, json: Serializer) returns (r: Result<Outbound, Exception>)
      ensures r.Success? && Sends(r.value, Config(), "PUT", NormalizePath(dbname), None, json)
    {
      r := Send("PUT", NormalizePath(dbname), None, json);
    }

    /** `destroy(dbname, callback)`: a DELETE of the normalised name, without data, headers or body. */
    method Destroy(dbname: string, json: Serializer) returns (r: Result<Outbound, Exception>)
      ensures r.Success? && Sends(r.value, Config(), "DELETE", NormalizePath(dbname), None, json)
    {
      r := Send("DELETE", NormalizePath(dbname), None, json);
    }

    /** The request `version` sends: `get("/")`, which asks for the server root. */
    method VersionRequest(json: Serializer) returns (r: Result<Outbound, Exception>)
      ensures r.Success? && Sends(r.value, Config(), "GET", "/", Some(Obj(map[])), json)
    {
      RootPath();
      r := Get("/", json);
    }

    /** The request `databases` sends: `get("_all_dbs")`. */
    method DatabasesRequest(json: Serializer) returns (r: Result<Outbound, Exception>)
      ensures r.Success? && Sends(r.value, Config(), "GET", "/" + AllDbs, Some(Obj(map[])), json)
    {
      AllDbsPath();
      r := Get(AllDbs, json);
    }

    /** The request `uuid(count, callback)` sends: `get("_uuids?count=" + count)`. */
    method UuidRequest(count: Value, json: Serializer) returns (r: Result<Outbound, Exception>)
      ensures r.Success? && Sends(r.value, Config(), "GET", UuidPath(count), Some(Obj(map[])), json)
    {
      r := Get(UuidsQuery + ToJsString(count), json);
    }
  }

  /** The database list and the unique-id generator of the server. */
  const AllDbs: string := "_all_dbs"
  const UuidsQuery: string := "_uuids?count="

  /** The path `uuid` asks for. */
  function UuidPath(count: Value): (r: string)
    ensures IsNormalPath(r)
  {
    NormalizePath(UuidsQuery + ToJsString(count))
  }

  /** For a numeric count the path is `/_uuids?count=` followed by the number in decimal. */
  lemma UuidPathOfNumber(n: int)
    ensures UuidPath(Num(n)) == "/" + UuidsQuery + DecimalString(n)
  {
    var d := DecimalString(n);
    UuidsQueryHasNoSlash();
    DecimalStringHasNoSlash(n);
    assert '/' !in UuidsQuery + d;
    NormalizePathOfName(UuidsQuery + d);
    assert "/" + (UuidsQuery + d) == "/" + UuidsQuery + d;
  }

  lemma UuidsQueryHasNoSlash()
    ensures '/' !in UuidsQuery
  {
    assert UuidsQuery == ['_', 'u', 'u', 'i', 'd', 's', '?', 'c', 'o', 'u', 'n', 't', '='];
    forall i | 0 <= i < |UuidsQuery| ensures UuidsQuery[i] != '/' {
    }
  }

  lemma DecimalStringHasNoSlash(n: int)
    ensures '/' !in DecimalString(n)
  {
    var d := DecimalString(n);
    forall i | 0 <= i < |d| ensures d[i] != '/' {
      assert d[i] == '-' || '0' <= d[i] <= '9';
    }
  }

  /** `get("_all_dbs")` asks for `/_all_dbs`. */
  lemma AllDbsPath()
    ensures NormalizePath(AllDbs) == "/" + AllDbs
  {
    assert AllDbs == ['_', 'a', 'l', 'l', '_', 'd', 'b', 's'];
    forall i | 0 <= i < |AllDbs| ensures AllDbs[i] != '/' {
    }
    NormalizePathOfName(AllDbs);
  }

  /** `get("/")` asks for the root, `/`. */
  lemma RootPath()
    ensures NormalizePath("/") == "/"
  {
    assert StripSlashes("/") == "";
  }

  /**
   * `new couchlib(options)`: throws for options that are not a plain
   * object; otherwise `host` and `port` are taken from the options or
   * defaulted, and `user` and `password` are copied only when present.
   */
  method NewClient(options: Value) returns (r: Result<Client, Exception>)
    ensures r.Failure? <==> ConstructorFields(options).Failure?
    ensures r.Failure? ==> r.error == Error(InitErrorMessage)
    ensures r.Success? ==>
      var fields := ConstructorFields(options).value;
      && r.value.host == (if "host" in fields then fields["host"] else Str(DefaultHost))
      && r.value.port == (if "port" in fields then fields["port"] else Str(DefaultPort))
      && r.value.user == (if "user" in fields then Some(fields["user"]) else None)
      && r.value.password == (if "password" in fields then Some(fields["password"]) else None)
  {
    var fields := ConstructorFields(options);
    if fields.Failure? {
      return Failure(fields.error);
    }
    var client := new Client(fields.value);
    r := Success(client);
  }
}
