/** The `SorbaMqttWifi` class: configuration fields and their setters, the
    interval timer, the Wi-Fi and MQTT connect/heal operations, and the
    send/receive facade over the shared JSON document and inbound queue.

    The collaborators are reduced to what the class observes of them:
    `linkUp` is `WiFi.isConnected()`, `wifiBegins` counts the calls of
    `WiFi.begin(...)`, `sessionUp` is `client.connected()`,
    `connectCalls` counts the calls of `client.connect(...)`, `published`
    records the calls of `client.publish(...)`, `doc` is the shared `_jsDoc`
    and `queue` is `subMsgQueue`. Answers of the outside world are parameters:
    `outcomes[i]` is whether the broker accepts the i-th handshake of a
    connect, `now`/`rearm` are readings of `millis()`, `arrivals` are the
    messages a `client.loop()` delivers, `publishOk` is what `publish`
    returns and `parse` is `deserializeJson`. String parameters standing for
    `char[]` arguments are given by their contents. */
module SorbaMqtt {
  import opened FixedWidth
  import opened CStrings
  import opened JsonDoc
  import opened SubQueue
  import opened Retry

  const WIFI_SSID_LIMIT: nat := 30
  const WIFI_PWD_LIMIT: nat := 25
  const MQTT_SERVER_LIMIT: nat := 100
  const MQTT_USER_LIMIT: nat := 25
  const MQTT_PWD_LIMIT: nat := 25
  const MQTT_CLIENTID_LIMIT: nat := 40

  /** One call of `client.publish(topic, mqttMsg, mqttQoS)`, with the document
      `mqttMsg` was serialised from. */
  datatype Publication = Publication(topic: string, doc: Document, qos: u16)

  class SorbaMqttWifi {
    var startTime: u32
    var timems: u32
    var retryLimit: u16
    const mqttClientID: array<char>
    const mqttServer: array<char>
    var mqttPort: u16
    const mqttUserName: array<char>
    const mqttPassword: array<char>
    var mqttQoS: u16
    var mqttKeepAlive: u16
    var mqttSocketTimeout: u16
    var mqttFloatDecimals: u16
    const wifiSSID: array<char>
    const wifiPwd: array<char>

    var linkUp: bool
    var wifiBegins: nat
    var sessionUp: bool
    var connectCalls: nat
    var published: seq<Publication>
    var doc: Document
    const queue: MsgQueue

    /** The fixed buffers have their declared sizes and are distinct objects,
        and the queue has capacity MQTT_QUEUE_LIMIT. */
    predicate Valid()
    {
      && mqttClientID.Length == MQTT_CLIENTID_LIMIT
      && mqttServer.Length == MQTT_SERVER_LIMIT
      && mqttUserName.Length == MQTT_USER_LIMIT
      && mqttPassword.Length == MQTT_PWD_LIMIT
      && wifiSSID.Length == WIFI_SSID_LIMIT
      && wifiPwd.Length == WIFI_PWD_LIMIT
      && mqttClientID != mqttServer && mqttClientID != mqttUserName
      && mqttClientID != mqttPassword && mqttClientID != wifiSSID && mqttClientID != wifiPwd
      && mqttServer != mqttUserName && mqttServer != mqttPassword
      && mqttServer != wifiSSID && mqttServer != wifiPwd
      && mqttUserName != mqttPassword && mqttUserName != wifiSSID && mqttUserName != wifiPwd
      && mqttPassword != wifiSSID && mqttPassword != wifiPwd
      && wifiSSID != wifiPwd
      && queue.capacity == MQTT_QUEUE_LIMIT
    }

    /** The field initialisers; buffers without an initialiser start zeroed,
        as in an object of static storage. */
    constructor ()
      ensures Valid() && queue.Valid()
      ensures fresh(queue) && fresh(mqttClientID) && fresh(mqttServer) && fresh(mqttUserName)
      ensures fresh(mqttPassword) && fresh(wifiSSID) && fresh(wifiPwd)
      ensures timems == 5000 && retryLimit == 3 && mqttQoS == 0
      ensures mqttKeepAlive == 30 && mqttSocketTimeout == 60 && mqttFloatDecimals == 2
      ensures startTime == 0 && mqttPort == 0
      ensures CStr(mqttUserName[..]) == "" && CStr(mqttPassword[..]) == ""
      ensures !linkUp && wifiBegins == 0 && !sessionUp && connectCalls == 0 && published == []
      ensures doc == EmptyDoc && queue.items == []
    {
      startTime := 0;
      timems := 5000;
      retryLimit := 3;
      mqttClientID := new char[MQTT_CLIENTID_LIMIT](_ => NUL);
      mqttServer := new char[MQTT_SERVER_LIMIT](_ => NUL);
      mqttPort := 0;
      mqttUserName := new char[MQTT_USER_LIMIT](_ => NUL);
      mqttPassword := new char[MQTT_PWD_LIMIT](_ => NUL);
      mqttQoS := 0;
      mqttKeepAlive := 30;
      mqttSocketTimeout := 60;
      mqttFloatDecimals := 2;
      wifiSSID := new char[WIFI_SSID_LIMIT](_ => NUL);
      wifiPwd := new char[WIFI_PWD_LIMIT](_ => NUL);
      linkUp := false;
      wifiBegins := 0;
      sessionUp := false;
      connectCalls := 0;
      published := [];
      doc := EmptyDoc;
      queue := new MsgQueue(MQTT_QUEUE_LIMIT);
    }

    // ---------------------------------------------------------------- setters

    method SetKeepAlive(time: u16)
      modifies this`mqttKeepAlive
      ensures mqttKeepAlive == time
    {
      mqttKeepAlive := time;
    }

    method SetSocketTimeout(time: u16)
      modifies this`mqttSocketTimeout
      ensures mqttSocketTimeout == time
    {
      mqttSocketTimeout := time;
    }

    method SetRetry(totalRetry: u16)
      modifies this`retryLimit
      ensures retryLimit == totalRetry
    {
      retryLimit := totalRetry;
    }

    method SetQoS(qos: u16)
      modifies this`mqttQoS
      ensures mqttQoS == qos
    {
      mqttQoS := qos;
    }

    method SetTimer(atime: u32)
      modifies this`timems
      ensures timems == atime
    {
      timems := atime;
    }

    method SetFloatDecimals(decimals: u16)
      modifies this`mqttFloatDecimals
      ensures mqttFloatDecimals == decimals
    {
      mqttFloatDecimals := decimals;
    }

    // ------------------------------------------------------------------ timer

    /** `startTimer()`, with `now` the reading of `millis()`. */
    method StartTimer(now: u32)
      modifies this`startTime
      ensures startTime == now
    {
      startTime := now;
    }

    /** `timerDone()`: `now` is the reading taken for the test and `rearm` the
        later one taken by `startTimer()` when the interval has passed. */
    method TimerDone(now: u32, rearm: u32) returns (done: bool)
      modifies this`startTime
      ensures done == Elapsed(old(startTime), now, timems)
      ensures startTime == if done then rearm else old(startTime)
    {
      var nowTime := now;
      if WrapSub(nowTime, startTime) >= timems {
        StartTimer(rearm);
        return true;
      }
      return false;
    }

    // ------------------------------------------------------------------- MQTT

    method IsConnected() returns (up: bool)
      ensures up == sessionUp
    {
      up := sessionUp;
    }

    /** `disconnect()`. */
    method Disconnect()
      modifies this`sessionUp
      ensures !sessionUp
    {
      sessionUp := false;
    }

    /** `connect()`: while not connected and fewer than `retryLimit` attempts
        were made, start a handshake; the first accepted one arms the timer
        with the reading `now` and returns true. Returns false when every
        attempt was refused, and also, without any attempt, when the session
        is already up. */
    method Connect(outcomes: seq<bool>, now: u32) returns (ok: bool)
      requires |outcomes| >= retryLimit
      modifies this`sessionUp, this`startTime, this`connectCalls
      ensures var run := ConnectRun(old(sessionUp), retryLimit, outcomes);
        && ok == run.accepted
        && connectCalls == old(connectCalls) + run.attempts
        && sessionUp == (old(sessionUp) || ok)
        && startTime == if ok then now else old(startTime)
    {
      var count: u16 := 0;
      while !sessionUp && count < retryLimit
        invariant count <= retryLimit
        invariant sessionUp == old(sessionUp) && startTime == old(startTime)
        invariant connectCalls == old(connectCalls) + count
        invariant !sessionUp ==> AttemptsFrom(outcomes, retryLimit, count) == AttemptsFrom(outcomes, retryLimit, 0)
        invariant sessionUp ==> count == 0
      {
        connectCalls := connectCalls + 1;
        if outcomes[count] {
          sessionUp := true;
          StartTimer(now);
          return true;
        }
        count := count + 1;
      }
      return false;
    }

    /** `connect(server, port, userName, password)`: each string is copied
        into its buffer bounded by the buffer's size, the port is stored, a
        fresh client id (`uuid`) replaces the old one, then `connect()`. */
    method ConnectWith(outcomes: seq<bool>, now: u32, uuid: seq<char>,
                       server: seq<char>, port: u16,
                       userName: seq<char> := "", password: seq<char> := "")
      returns (ok: bool)
      requires Valid() && |outcomes| >= retryLimit
      modifies this`mqttPort, this`sessionUp, this`startTime, this`connectCalls
      modifies mqttServer, mqttUserName, mqttPassword, mqttClientID
      ensures mqttServer[..] == Strncpy(server, MQTT_SERVER_LIMIT)
      ensures mqttUserName[..] == Strncpy(userName, MQTT_USER_LIMIT)
      ensures mqttPassword[..] == Strncpy(password, MQTT_PWD_LIMIT)
      ensures mqttClientID[..] == Strncpy(uuid, MQTT_CLIENTID_LIMIT)
      ensures mqttPort == port
      ensures var run := ConnectRun(old(sessionUp), retryLimit, outcomes);
        && ok == run.accepted
        && connectCalls == old(connectCalls) + run.attempts
        && sessionUp == (old(sessionUp) || ok)
        && startTime == if ok then now else old(startTime)
    {
      StrncpyInto(mqttServer, server);
      mqttPort := port;
      StrncpyInto(mqttUserName, userName);
      StrncpyInto(mqttPassword, password);
      StrncpyInto(mqttClientID, uuid);
      ok := Connect(outcomes, now);
    }

    /** `checkConnection()`: `connect()` only when the session is down. */
    method CheckConnection(outcomes: seq<bool>, now: u32)
      requires |outcomes| >= retryLimit
      modifies this`sessionUp, this`startTime, this`connectCalls
      ensures var run := ConnectRun(old(sessionUp), retryLimit, outcomes);
        && connectCalls == old(connectCalls) + run.attempts
        && sessionUp == (old(sessionUp) || run.accepted)
        && startTime == if run.accepted then now else old(startTime)
    {
      var up := IsConnected();
      if !up {
        var _ := Connect(outcomes, now);
      }
    }

    /** `reconnect()`: `disconnect()` then `connect()`, whose result it returns;
        the retry therefore always runs. */
    method Reconnect(outcomes: seq<bool>, now: u32) returns (ok: bool)
      requires |outcomes| >= retryLimit
      modifies this`sessionUp, this`startTime, this`connectCalls
      ensures var run := ConnectRun(false, retryLimit, outcomes);
        && ok == run.accepted
        && connectCalls == old(connectCalls) + run.attempts
        && sessionUp == ok
        && startTime == if ok then now else old(startTime)
    {
      Disconnect();
      ok := Connect(outcomes, now);
    }

    // ------------------------------------------------------------------ Wi-Fi

    method IsConnectedWifi() returns (up: bool)
      ensures up == linkUp
    {
      up := linkUp;
    }

    /** `connectWifi()`: starts the radio with the stored credentials, waits
        until the link is up and only then returns true; the wait itself is
        not modelled. */
    method ConnectWifi() returns (ok: bool)
      modifies this`linkUp, this`wifiBegins
      ensures ok && linkUp
      ensures wifiBegins == old(wifiBegins) + 1
    {
      wifiBegins := wifiBegins + 1;
      linkUp := true;
      ok := true;
    }

    /** `connectWifi(ssid, pwd)`: unbounded `strcpy` of both strings into
        their buffers, so each must be shorter than its buffer; then
        `connectWifi()`. */
    method ConnectWifiWith(ssid: seq<char>, pwd: seq<char>) returns (ok: bool)
      requires Valid()
      requires |CStr(ssid)| < WIFI_SSID_LIMIT && |CStr(pwd)| < WIFI_PWD_LIMIT
      modifies wifiSSID, wifiPwd, this`linkUp, this`wifiBegins
      ensures wifiSSID[..] == Strcpy(old(wifiSSID[..]), ssid)
      ensures wifiPwd[..] == Strcpy(old(wifiPwd[..]), pwd)
      ensures CStr(wifiSSID[..]) == CStr(ssid) && CStr(wifiPwd[..]) == CStr(pwd)
      ensures ok && linkUp
      ensures wifiBegins == old(wifiBegins) + 1
    {
      StrcpyInto(wifiSSID, ssid);
      StrcpyInto(wifiPwd, pwd);
      ok := ConnectWifi();
    }

    method DisconnectWifi()
      modifies this`linkUp
      ensures !linkUp
    {
      linkUp := false;
    }

    /** `reconnectWifi()`: `disconnectWifi()` then `connectWifi()`, so the
        radio is always started again. */
    method ReconnectWifi() returns (ok: bool)
      modifies this`linkUp, this`wifiBegins
      ensures ok && linkUp
      ensures wifiBegins == old(wifiBegins) + 1
    {
      DisconnectWifi();
      ok := ConnectWifi();
    }

    /** `checkConnectionWifi()`: `connectWifi()` only when the link is down. */
    method CheckConnectionWifi()
      modifies this`linkUp, this`wifiBegins
      ensures linkUp
      ensures wifiBegins == old(wifiBegins) + if old(linkUp) then 0 else 1
    {
      var up := IsConnectedWifi();
      if !up {
        var _ := ConnectWifi();
      }
    }

    // --------------------------------------------------------------- messages

    /** `msgInit()`. */
    method MsgInit()
      modifies this`doc
      ensures doc == EmptyDoc
    {
      doc := EmptyDoc;
    }

    /** The bool, integer and string `msgPack` overloads; the keys are the
        C strings in the `char[]` arguments. */
    method MsgPack(group: string, param: string, value: JsonValue)
      modifies this`doc
      ensures doc == Pack(old(doc), CStr(group), CStr(param), value)
    {
      doc := Pack(doc, CStr(group), CStr(param), value);
    }

    /** The float and double `msgPack` overloads: `dec == 0` (the default)
        stands for `mqttFloatDecimals` places; any other `dec` is used as given. */
    method MsgPackFloat(group: string, param: string, value: real, dec: u16 := 0)
      modifies this`doc
      ensures dec == 0 ==> doc == Pack(old(doc), CStr(group), CStr(param), JRounded(value, mqttFloatDecimals))
      ensures dec != 0 ==> doc == Pack(old(doc), CStr(group), CStr(param), JRounded(value, dec))
    {
      var places := dec;
      if places == 0 {
        places := mqttFloatDecimals;
      }
      doc := Pack(doc, CStr(group), CStr(param), JRounded(value, places));
    }

    /** The `msgUnpack` overloads: a group whose `strlen` is 0 reads `param`
        at the top level, any other group reads `group`/`param`; the keys are
        the C strings in the `char[]` arguments. */
    method MsgUnpack(group: string, param: string) returns (value: Option<JsonValue>)
      ensures CStr(group) == "" ==> value == TopLevel(doc, CStr(param))
      ensures CStr(group) != "" ==> value == Member(doc, CStr(group), CStr(param))
    {
      if |CStr(group)| == 0 {
        value := TopLevel(doc, CStr(param));
      } else {
        value := Member(doc, CStr(group), CStr(param));
      }
    }

    /** `sendMsg(topic)`: heal the Wi-Fi link, then the MQTT session; only a
        connected session services the client (`arrivals`), publishes the
        document at `mqttQoS` and returns the publish result. */
    method SendMsg(topic: string, outcomes: seq<bool>, now: u32,
                   arrivals: seq<Arrival>, publishOk: bool) returns (ok: bool)
      requires queue.Valid() && |outcomes| >= retryLimit
      requires |queue.items| + |arrivals| <= queue.capacity
      modifies this`linkUp, this`wifiBegins, this`sessionUp, this`startTime, this`connectCalls
      modifies this`published, queue`items
      ensures queue.Valid() && linkUp
      ensures wifiBegins == old(wifiBegins) + if old(linkUp) then 0 else 1
      ensures var run := ConnectRun(old(sessionUp), retryLimit, outcomes);
        && connectCalls == old(connectCalls) + run.attempts
        && sessionUp == (old(sessionUp) || run.accepted)
        && startTime == if run.accepted then now else old(startTime)
      ensures sessionUp ==> ok == publishOk
      ensures sessionUp ==> published == old(published) + [Publication(CStr(topic), doc, mqttQoS)]
      ensures sessionUp ==> queue.items == old(queue.items) + Messages(arrivals)
      ensures !sessionUp ==> !ok && published == old(published) && queue.items == old(queue.items)
    {
      CheckConnectionWifi();
      CheckConnection(outcomes, now);
      var up := IsConnected();
      if up {
        ServiceTick(queue, arrivals);
        published := published + [Publication(CStr(topic), doc, mqttQoS)];
        var result := publishOk;
        return result;
      }
      return false;
    }

    /** `recvMsg(topic, payload)`: clear both outputs, service the client,
        then take at most the head of the queue. */
    method RecvMsg(arrivals: seq<Arrival>) returns (ok: bool, topic: string, payload: string)
      requires queue.Valid() && |queue.items| + |arrivals| <= queue.capacity
      modifies queue`items
      ensures queue.Valid()
      ensures var pending := old(queue.items) + Messages(arrivals);
        && ok == (pending != [])
        && (ok ==> topic == pending[0].topic && payload == pending[0].payload)
        && (ok ==> queue.items == pending[1..])
        && (!ok ==> topic == "" && payload == "" && queue.items == pending)
    {
      topic, payload := "", "";
      ServiceTick(queue, arrivals);
      var empty := queue.IsEmpty();
      if !empty {
        var msg := queue.Dequeue();
        topic := msg.topic;
        payload := msg.payload;
        return true, topic, payload;
      }
      return false, topic, payload;
    }

    /** `recvMsg(topic)`: clear the topic and the document, service the
        client, take at most the head of the queue and parse its payload into
        the document. A parse error clears both again and returns false; the
        message is consumed all the same. */
    method RecvMsgParsed(arrivals: seq<Arrival>, parse: string -> Deserialized)
      returns (ok: bool, topic: string)
      requires queue.Valid() && |queue.items| + |arrivals| <= queue.capacity
      modifies this`doc, queue`items
      ensures queue.Valid()
      ensures var pending := old(queue.items) + Messages(arrivals);
        && (pending == [] ==> !ok && topic == "" && doc == EmptyDoc && queue.items == [])
        && (pending != [] ==> queue.items == pending[1..])
        && (pending != [] ==> ok == !parse(pending[0].payload).error)
        && (ok ==> topic == pending[0].topic && doc == parse(pending[0].payload).doc)
        && (!ok ==> topic == "" && doc == EmptyDoc)
    {
      topic := "";
      doc := EmptyDoc;
      ServiceTick(queue, arrivals);
      var empty := queue.IsEmpty();
      if !empty {
        var msg := queue.Dequeue();
        topic := msg.topic;
        var result := parse(msg.payload);
        doc := result.doc;
        if result.error {
          topic := "";
          doc := EmptyDoc;
          return false, topic;
        }
        return true, topic;
      }
      return false, topic;
    }

    /** `parseMsg(msg)`: parse caller-supplied text into the document and
        report whether it parsed; on an error the document is whatever the
        parser left in it. */
    method ParseMsg(msg: string, parse: string -> Deserialized) returns (ok: bool)
      modifies this`doc
      ensures ok == !parse(msg).error && doc == parse(msg).doc
    {
      var result := parse(msg);
      doc := result.doc;
      ok := !result.error;
    }
  }
}
