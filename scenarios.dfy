/** Client-side checks of the class's contracts on concrete runs: what an
    application can rely on from the specifications alone. */
module Scenarios {
  import opened FixedWidth
  import opened CStrings
  import opened SubQueue
  import opened JsonDoc
  import opened Retry
  import opened SorbaMqtt

  /** Three messages on topics "a/1", "a/2", "a/3" with payloads "p1", "p2",
      "p3" arrive through the callback; three `recvMsg` calls return them in
      that order and a fourth finds nothing. */
  method ArrivalOrder() returns (t1: string, p1: string, t2: string, p2: string,
                                 t3: string, p3: string, more: bool)
    ensures t1 == "a/1" && p1 == "p1"
    ensures t2 == "a/2" && p2 == "p2"
    ensures t3 == "a/3" && p3 == "p3"
    ensures !more
  {
    var s := new SorbaMqttWifi();
    // 'p' is byte 112, '1' to '3' are bytes 49 to 51
    DefCallback(s.queue, "a/1", [112, 49], 2);
    DefCallback(s.queue, "a/2", [112, 50], 2);
    DefCallback(s.queue, "a/3", [112, 51], 2);
    var ok, t4, p4;
    ok, t1, p1 := s.RecvMsg([]);
    ok, t2, p2 := s.RecvMsg([]);
    ok, t3, p3 := s.RecvMsg([]);
    more, t4, p4 := s.RecvMsg([]);
  }

  /** With the retry limit set to 2 and a broker that refuses every
      handshake, `connect()` makes two attempts and fails; `sendMsg` then
      publishes nothing and returns false. */
  method RefusingBroker() returns (connected: bool, attempts: nat, sent: bool, publishes: nat)
    ensures !connected && attempts == 2
    ensures !sent && publishes == 0
  {
    var s := new SorbaMqttWifi();
    s.SetRetry(2);
    connected := s.Connect([false, false], 1000);
    RefusedEveryAttempt([false, false], 2);
    attempts := s.connectCalls;
    sent := s.SendMsg("sorba/data", [false, false], 2000, [], true);
    publishes := |s.published|;
  }

  /** A broker that accepts the third handshake: the default retry limit of
      3 is just enough, and the timer is armed with that reading. */
  method AcceptOnThird() returns (connected: bool, attempts: nat, armed: u32)
    ensures connected && attempts == 3 && armed == 777
  {
    var s := new SorbaMqttWifi();
    connected := s.Connect([false, false, true], 777);
    AcceptedOnAttempt([false, false, true], 3, 2);
    attempts := s.connectCalls;
    armed := s.startTime;
  }

  /** The already-connected quirk: a second `connect()` returns false and
      makes no attempt. */
  method ConnectWhileConnected() returns (first: bool, second: bool, attempts: nat)
    ensures first && !second && attempts == 1
  {
    var s := new SorbaMqttWifi();
    first := s.Connect([true, true, true], 0);
    second := s.Connect([true, true, true], 5);
    attempts := s.connectCalls;
  }

  /** The timer armed 256 ms before the clock wraps is due 5000 ms later,
      although the later reading is numerically smaller, and not 1 ms
      earlier. */
  method TimerAcrossWrap() returns (early: bool, due: bool)
    ensures !early && due
  {
    var s := new SorbaMqttWifi();
    s.StartTimer(0xFFFF_FF00);
    early := s.TimerDone(4743, 4744);
    due := s.TimerDone(4744, 4745);
  }

  /** A server name of 100 characters fills `mqttServer` with no terminator
      left; a 36-character UUID fits the 40-byte client id. */
  method LongServerName(server: seq<char>, uuid: seq<char>) returns (serverTerminated: bool, id: seq<char>)
    requires |server| == 100 && NUL !in server
    requires |uuid| == 36 && NUL !in uuid
    ensures !serverTerminated && id == uuid
  {
    var s := new SorbaMqttWifi();
    s.SetRetry(0);
    var _ := s.ConnectWith([], 0, uuid, server, 1883);
    StrncpyTerminated(server, 100);
    StrncpyTerminated(uuid, 40);
    assert CStr(server) == server && CStr(uuid) == uuid;
    serverTerminated := NUL in s.mqttServer[..];
    id := CStr(s.mqttClientID[..]);
  }

  /** `checkConnectionWifi()` starts the radio on a down link and leaves a
      live link alone: two checks in a row start it once. */
  method WifiHealOnlyWhenDown() returns (up: bool, begins: nat)
    ensures up && begins == 1
  {
    var s := new SorbaMqttWifi();
    s.CheckConnectionWifi();
    s.CheckConnectionWifi();
    up := s.linkUp;
    begins := s.wifiBegins;
  }

  /** A group buffer whose first byte is NUL has `strlen` 0, so unpacking
      with it reads the top-level key. */
  method NulGroupReadsTopLevel() returns (value: Option<JsonValue>)
    ensures value == Some(JInt(7))
  {
    var s := new SorbaMqttWifi();
    var parsed := map["p" := Scalar(JInt(7))];
    var _ := s.ParseMsg("{\"p\":7}", _ => Deserialized(false, parsed));
    CStrOfTerminated("", "x");
    CStrOfTerminated("p", "");
    value := s.MsgUnpack("\0x", "p\0");
  }
}
