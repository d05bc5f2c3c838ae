/**
 * How the NATS streaming pub/sub (pkg/messaging/nats/nats.go) turns component metadata and a
 * subscription request into the option list of a subscription: parse, merge, translate.
 */
module NatsOptions {
  import opened Wrappers

  newtype int32 = x: int | -0x8000_0000 <= x < 0x8000_0000
  newtype uint64 = x: int | 0 <= x < 0x1_0000_0000_0000_0000

  /** The source's conversion uint64(x) of an int32: two's complement. */
  function ToUint64(x: int32): uint64 {
    if x >= 0 then x as uint64 else (x as int + 0x1_0000_0000_0000_0000) as uint64
  }

  /** The source's conversion int(u) on a 64-bit platform. */
  function ToInt(u: uint64): int {
    if u as int < 0x8000_0000_0000_0000 then u as int else u as int - 0x1_0000_0000_0000_0000
  }

  lemma ConversionsCancel(x: int32)
    ensures ToInt(ToUint64(x)) == x as int
    ensures ToUint64(x) >= 1 <==> x != 0
  {
  }

  type Properties = map<string, string>

  /** Library parsers, and the error they may report. */
  datatype Parsers = Parsers(uint: string -> Option<uint64>, duration: string -> Option<int>,
                             time: (string, string) -> Option<int>)

  datatype Options = Options(
    natsURL: string, clusterID: string, subscriptionType: string, queueGroup: string, durable: string,
    startAtSequence: uint64, startWithLastReceived: string, deliverNew: string, deliverAll: string,
    startAtTimeDelta: int, connectWait: Option<int>, startAtTime: string, startAtTimeFormat: string,
    ackWait: int, maxInFlight: uint64)

  /** Nothing set: the connect wait is the client library's default. */
  const EMPTY := Options("", "", "", "", "", 0, "", "", "", 0, None, "", "", 0, 0)

  datatype Error = BadMetadata | MissingQueueGroup | BadStartTime | NoSubscription

  /** The source reads most properties only when they are present and not empty. */
  predicate Given(p: Properties, key: string) {
    key in p && p[key] != ""
  }

  /** The branch of the "only one can be used" chain that the metadata takes. */
  datatype Choice = Sequence | LastReceived | All | New | TimeDelta | ConnectWait | Time | Nothing

  function ChoiceOf(p: Properties): Choice {
    if Given(p, "startAtSequence") then Sequence
    else if "startWithLastReceived" in p then LastReceived
    else if "deliverAll" in p then All
    else if "deliverNew" in p then New
    else if Given(p, "startAtTimeDelta") then TimeDelta
    else if Given(p, "connectWait") then ConnectWait
    else if Given(p, "startAtTime") then Time
    else Nothing
  }

  // ---------------------------------------------------------------------------------------------
  // Parsing the metadata

  function Text(p: Properties, key: string): string {
    if Given(p, key) then p[key] else ""
  }

  predicate Positive(n: Option<uint64>) {
    n.Some? && n.value >= 1
  }

  /** What the metadata must say besides its start option. */
  predicate CommonOk(p: Properties, parsers: Parsers) {
    && Given(p, "natsURL") && Given(p, "natsStreamingClusterID") && Given(p, "consumerID")
    && ("subscriptionType" in p ==> p["subscriptionType"] == "topic" || p["subscriptionType"] == "queue")
    && (Given(p, "ackWaitTime") ==> parsers.duration(p["ackWaitTime"]).Some?)
    && (Given(p, "maxInFlight") ==> Positive(parsers.uint(p["maxInFlight"])))
  }

  /** The chosen start option carries a value it can carry. Options behind it are not looked at. */
  predicate StartOk(p: Properties, parsers: Parsers) {
    match ChoiceOf(p)
    case Sequence => Positive(parsers.uint(p["startAtSequence"]))
    case LastReceived => p["startWithLastReceived"] == "true"
    case All => p["deliverAll"] == "true"
    case New => p["deliverNew"] == "true"
    case TimeDelta => parsers.duration(p["startAtTimeDelta"]).Some?
    case ConnectWait => parsers.duration(p["connectWait"]).Some?
    case Time => Given(p, "startAtTimeFormat")
    case Nothing => true
  }

  predicate CommonSet(m: Options, p: Properties, parsers: Parsers)
    requires CommonOk(p, parsers)
  {
    && m.natsURL == Text(p, "natsURL") && m.clusterID == Text(p, "natsStreamingClusterID")
    && m.queueGroup == Text(p, "consumerID") && m.subscriptionType == Text(p, "subscriptionType")
    && m.durable == Text(p, "durableSubscriptionName")
    && m.ackWait == (if Given(p, "ackWaitTime") then parsers.duration(p["ackWaitTime"]).value else 0)
    && m.maxInFlight == (if Given(p, "maxInFlight") then parsers.uint(p["maxInFlight"]).value else 0)
  }

  /** Only the chosen start option is set. */
  predicate StartSet(m: Options, p: Properties, parsers: Parsers)
    requires StartOk(p, parsers)
  {
    var c := ChoiceOf(p);
    && m.startAtSequence == (if c == Sequence then parsers.uint(p["startAtSequence"]).value else 0)
    && m.startWithLastReceived == (if c == LastReceived then "true" else "")
    && m.deliverAll == (if c == All then "true" else "")
    && m.deliverNew == (if c == New then "true" else "")
    && m.startAtTimeDelta == (if c == TimeDelta then parsers.duration(p["startAtTimeDelta"]).value else 0)
    && m.connectWait == (if c == ConnectWait then parsers.duration(p["connectWait"]) else None)
    && m.startAtTime == (if c == Time then p["startAtTime"] else "")
    && m.startAtTimeFormat == (if c == Time then p["startAtTimeFormat"] else "")
  }

  /** The options apart from those that only ParseStart sets. */
  predicate SameCommon(a: Options, b: Options) {
    && a.natsURL == b.natsURL && a.clusterID == b.clusterID && a.subscriptionType == b.subscriptionType
    && a.queueGroup == b.queueGroup && a.durable == b.durable && a.ackWait == b.ackWait
    && a.maxInFlight == b.maxInFlight
  }

  predicate NoStart(m: Options) {
    && m.startAtSequence == 0 && m.startWithLastReceived == "" && m.deliverAll == "" && m.deliverNew == ""
    && m.startAtTimeDelta == 0 && m.connectWait == None && m.startAtTime == "" && m.startAtTimeFormat == ""
  }

  /** The chain of start options, of which only the first one present is used. */
  method ParseStart(p: Properties, common: Options, parsers: Parsers) returns (r: Result<Options, Error>)
    requires NoStart(common)
    ensures r.Ok? <==> StartOk(p, parsers)
    ensures r.Ok? ==> SameCommon(r.value, common) && StartSet(r.value, p, parsers)
    ensures r.Err? ==> r.error == BadMetadata
  {
    var m := common;
    if Given(p, "startAtSequence") {
      var n := parsers.uint(p["startAtSequence"]);
      if n.None? || n.value < 1 { return Err(BadMetadata); }
      m := m.(startAtSequence := n.value);
    } else if "startWithLastReceived" in p {
      if p["startWithLastReceived"] != "true" { return Err(BadMetadata); }
      m := m.(startWithLastReceived := p["startWithLastReceived"]);
    } else if "deliverAll" in p {
      if p["deliverAll"] != "true" { return Err(BadMetadata); }
      m := m.(deliverAll := p["deliverAll"]);
    } else if "deliverNew" in p {
      if p["deliverNew"] != "true" { return Err(BadMetadata); }
      m := m.(deliverNew := p["deliverNew"]);
    } else if Given(p, "startAtTimeDelta") {
      var d := parsers.duration(p["startAtTimeDelta"]);
      if d.None? { return Err(BadMetadata); }
      m := m.(startAtTimeDelta := d.value);
    } else if Given(p, "connectWait") {
      var d := parsers.duration(p["connectWait"]);
      if d.None? { return Err(BadMetadata); }
      m := m.(connectWait := d);
    } else if Given(p, "startAtTime") {
      m := m.(startAtTime := p["startAtTime"]);
      if !Given(p, "startAtTimeFormat") { return Err(BadMetadata); }
      m := m.(startAtTimeFormat := p["startAtTimeFormat"]);
    }
    return Ok(m);
  }

  /** parseNATSStreamingMetadata. */
  method ParseMetadata(p: Properties, parsers: Parsers) returns (r: Result<Options, Error>)
    ensures r.Ok? <==> CommonOk(p, parsers) && StartOk(p, parsers)
    ensures r.Ok? ==> CommonSet(r.value, p, parsers) && StartSet(r.value, p, parsers)
    ensures r.Err? ==> r.error == BadMetadata
  {
    hide ChoiceOf, StartOk, StartSet;
    var m := EMPTY;
    if !Given(p, "natsURL") { return Err(BadMetadata); }
    m := m.(natsURL := p["natsURL"]);
    if !Given(p, "natsStreamingClusterID") { return Err(BadMetadata); }
    m := m.(clusterID := p["natsStreamingClusterID"]);
    if "subscriptionType" in p {
      if p["subscriptionType"] != "topic" && p["subscriptionType"] != "queue" { return Err(BadMetadata); }
      m := m.(subscriptionType := p["subscriptionType"]);
    }
    if !Given(p, "consumerID") { return Err(BadMetadata); }
    m := m.(queueGroup := p["consumerID"]);
    if Given(p, "durableSubscriptionName") {
      m := m.(durable := p["durableSubscriptionName"]);
    }
    if Given(p, "ackWaitTime") {
      var d := parsers.duration(p["ackWaitTime"]);
      if d.None? { return Err(BadMetadata); }
      m := m.(ackWait := d.value);
    }
    if Given(p, "maxInFlight") {
      var n := parsers.uint(p["maxInFlight"]);
      if n.None? || n.value < 1 { return Err(BadMetadata); }
      m := m.(maxInFlight := n.value);
    }
    r := ParseStart(p, m, parsers);
  }

  // ---------------------------------------------------------------------------------------------
  // Merging a request

  /** A subscription request: every part may be missing. */
  datatype Request = Request(durable: Option<bool>, qGroup: Option<bool>, concurrency: Option<int32>,
                             newOnly: Option<bool>, ackWait: Option<int>)

  const NO_REQUEST := Request(None, None, None, None, None)

  function DurableOf(durable: string, asked: Option<bool>): string {
    if asked.None? then durable else if !asked.value then "" else if durable == "" then "durable" else durable
  }

  /** mergeGlobalAndSubscriptionOptions: the whole new options, field by field. */
  method Merge(global: Options, request: Option<Request>) returns (r: Result<Options, Error>)
    ensures r.Err? <==> request.Some? && request.value.qGroup == Some(true) && global.queueGroup == ""
    ensures r.Err? ==> r.error == MissingQueueGroup
    ensures r.Ok? ==>
              var q := if request.Some? then request.value else NO_REQUEST;
              r.value == global.(
                durable := DurableOf(global.durable, q.durable),
                queueGroup := if q.qGroup == Some(false) then "" else global.queueGroup,
                subscriptionType := match q.qGroup {
                  case None => global.subscriptionType
                  case Some(grouped) => if grouped then "queue" else "topic"
                },
                maxInFlight := if q.concurrency.Some? then ToUint64(q.concurrency.value) else global.maxInFlight,
                deliverNew := if q.newOnly == Some(true) then "true" else global.deliverNew,
                deliverAll := if q.newOnly == Some(false) then "true" else global.deliverAll,
                ackWait := if q.ackWait.Some? then q.ackWait.value else global.ackWait)
  {
    hide ToUint64;
    if request.None? {
      return Ok(global);
    }
    var q, m := request.value, global;
    if q.durable.Some? {
      if q.durable.value {
        if m.durable == "" {
          m := m.(durable := "durable");
        }
      } else {
        m := m.(durable := "");
      }
    }
    if q.qGroup.Some? {
      if q.qGroup.value {
        if m.queueGroup == "" {
          return Err(MissingQueueGroup);
        }
        m := m.(subscriptionType := "queue");
      } else {
        m := m.(queueGroup := "", subscriptionType := "topic");
      }
    }
    if q.concurrency.Some? {
      m := m.(maxInFlight := ToUint64(q.concurrency.value));
    }
    if q.newOnly.Some? {
      if q.newOnly.value {
        m := m.(deliverNew := "true");
      } else {
        m := m.(deliverAll := "true");
      }
    }
    if q.ackWait.Some? {
      m := m.(ackWait := q.ackWait.value);
    }
    return Ok(m);
  }

  // ---------------------------------------------------------------------------------------------
  // Translating to broker options

  datatype StanOption =
    | DurableName(name: string)
    | StartNewOnly
    | StartAtSequence(seqNo: uint64)
    | StartWithLastReceived
    | DeliverAllAvailable
    | StartAtTimeDelta(d: int)
    | StartAtTime(t: int)
    | ManualAck
    | AckWait(d: int)
    | MaxInflight(n: int)

  predicate IsStart(o: StanOption) {
    o.StartNewOnly? || o.StartAtSequence? || o.StartWithLastReceived? || o.DeliverAllAvailable?
    || o.StartAtTimeDelta? || o.StartAtTime?
  }

  predicate IsManualAck(o: StanOption) {
    o.ManualAck?
  }

  predicate IsLimit(o: StanOption) {
    o.MaxInflight?
  }

  /** One option of a kind, or none. */
  function Maybe(there: bool, o: StanOption): seq<StanOption> {
    if there then [o] else []
  }

  /** The shape of every option list, whose parts are all there is to know about it. */
  function OptionList(durable: string, start: Option<StanOption>, ackWait: int, limit: Option<int>): seq<StanOption> {
    Maybe(durable != "", DurableName(durable)) + (if start.Some? then [start.value] else []) + [ManualAck]
    + Maybe(ackWait > 1, AckWait(ackWait)) + (if limit.Some? then [MaxInflight(limit.value)] else [])
  }

  function Count(options: seq<StanOption>, counted: StanOption -> bool): nat {
    if options == [] then 0
    else (if counted(options[0]) then 1 else 0) + Count(options[1..], counted)
  }

  lemma {:induction false} CountConcat(a: seq<StanOption>, b: seq<StanOption>, counted: StanOption -> bool)
    ensures Count(a + b, counted) == Count(a, counted) + Count(b, counted)
  {
    if a == [] {
      assert a + b == b;
    } else {
      assert (a + b)[1..] == a[1..] + b;
      CountConcat(a[1..], b, counted);
    }
  }

  lemma CountFew(o: StanOption, counted: StanOption -> bool)
    ensures Count([], counted) == 0
    ensures Count([o], counted) == if counted(o) then 1 else 0
  {
  }

  lemma CountParts(durable: string, start: Option<StanOption>, ackWait: int, limit: Option<int>,
                   counted: StanOption -> bool)
    ensures Count(OptionList(durable, start, ackWait, limit), counted)
         == (if durable != "" && counted(DurableName(durable)) then 1 else 0)
          + (if start.Some? && counted(start.value) then 1 else 0)
          + (if counted(ManualAck) then 1 else 0)
          + (if ackWait > 1 && counted(AckWait(ackWait)) then 1 else 0)
          + (if limit.Some? && counted(MaxInflight(limit.value)) then 1 else 0)
  {
    hide Count;
    CountFew(DurableName(durable), counted);
    CountFew(if start.Some? then start.value else ManualAck, counted);
    CountFew(ManualAck, counted);
    CountFew(AckWait(ackWait), counted);
    CountFew(MaxInflight(if limit.Some? then limit.value else 0), counted);
    var a, b, c := Maybe(durable != "", DurableName(durable)), if start.Some? then [start.value] else [], [ManualAck];
    var d, e := Maybe(ackWait > 1, AckWait(ackWait)), if limit.Some? then [MaxInflight(limit.value)] else [];
    CountConcat(a, b, counted);
    CountConcat(a + b, c, counted);
    CountConcat(a + b + c, d, counted);
    CountConcat(a + b + c + d, e, counted);
  }

  /** Exactly one manual acknowledgement and at most one of everything else. */
  lemma OneOfEach(durable: string, start: Option<StanOption>, ackWait: int, limit: Option<int>)
    requires start.Some? ==> IsStart(start.value)
    ensures
      var options := OptionList(durable, start, ackWait, limit);
      && Count(options, IsManualAck) == 1
      && Count(options, IsStart) == (if start.Some? then 1 else 0)
      && Count(options, IsLimit) == (if limit.Some? then 1 else 0)
      && (start.Some? ==> start.value in options)
      && (limit.Some? ==> MaxInflight(limit.value) in options)
  {
    CountParts(durable, start, ackWait, limit, IsManualAck);
    CountParts(durable, start, ackWait, limit, IsStart);
    CountParts(durable, start, ackWait, limit, IsLimit);
  }

  /** The start option of merged options: the first case of the switch that applies. */
  function StartFrom(o: Options, parsers: Parsers): Result<Option<StanOption>, Error> {
    if o.deliverNew == "true" then Ok(Some(StartNewOnly))
    else if o.startAtSequence >= 1 then Ok(Some(StartAtSequence(o.startAtSequence)))
    else if o.startWithLastReceived == "true" then Ok(Some(StartWithLastReceived))
    else if o.deliverAll == "true" then Ok(Some(DeliverAllAvailable))
    else if o.startAtTimeDelta > 1 then Ok(Some(StartAtTimeDelta(o.startAtTimeDelta)))
    else if o.startAtTime == "" || o.startAtTimeFormat == "" then Ok(None)
    else
      var t := parsers.time(o.startAtTimeFormat, o.startAtTime);
      if t.None? then Err(BadStartTime) else Ok(Some(StartAtTime(t.value)))
  }

  function LimitFrom(maxInFlight: uint64): Option<int> {
    if maxInFlight >= 1 then Some(ToInt(maxInFlight)) else None
  }

  /** stanSubscriptionOptions. */
  method Translate(o: Options, parsers: Parsers) returns (r: Result<seq<StanOption>, Error>)
    ensures r.Err? <==> StartFrom(o, parsers).Err?
    ensures r.Err? ==> r.error == BadStartTime
    ensures r.Ok? ==>
              r.value == OptionList(o.durable, StartFrom(o, parsers).value, o.ackWait, LimitFrom(o.maxInFlight))
  {
    hide ToInt;
    var options: seq<StanOption> := [];
    if o.durable != "" {
      options := options + [DurableName(o.durable)];
    }
    ghost var parts := Maybe(o.durable != "", DurableName(o.durable));
    assert options == parts;
    if o.deliverNew == "true" {
      options := options + [StartNewOnly];
    } else if o.startAtSequence >= 1 {
      options := options + [StartAtSequence(o.startAtSequence)];
    } else if o.startWithLastReceived == "true" {
      options := options + [StartWithLastReceived];
    } else if o.deliverAll == "true" {
      options := options + [DeliverAllAvailable];
    } else if o.startAtTimeDelta > 1 {
      options := options + [StartAtTimeDelta(o.startAtTimeDelta)];
    } else if o.startAtTime != "" {
      if o.startAtTimeFormat != "" {
        var t := parsers.time(o.startAtTimeFormat, o.startAtTime);
        if t.None? {
          return Err(BadStartTime);
        }
        options := options + [StartAtTime(t.value)];
      }
    }
    ghost var start := StartFrom(o, parsers).value;
    parts := parts + (if start.Some? then [start.value] else []);
    assert options == parts;
    hide StartFrom;
    options, parts := options + [ManualAck], parts + [ManualAck];
    if o.ackWait > 1 {
      options := options + [AckWait(o.ackWait)];
    }
    parts := parts + Maybe(o.ackWait > 1, AckWait(o.ackWait));
    assert options == parts;
    if o.maxInFlight >= 1 {
      options := options + [MaxInflight(ToInt(o.maxInFlight))];
    }
    ghost var limit := LimitFrom(o.maxInFlight);
    parts := parts + (if limit.Some? then [MaxInflight(limit.value)] else []);
    assert options == parts;
    return Ok(options);
  }

  // ---------------------------------------------------------------------------------------------
  // From metadata and request to the subscription

  function TimeOf(p: Properties, parsers: Parsers): Option<int>
    requires StartOk(p, parsers) && ChoiceOf(p) == Time
  {
    parsers.time(p["startAtTimeFormat"], p["startAtTime"])
  }

  /**
   * Where a subscription starts, by metadata and request: a request for new messages only always
   * wins, and a request for all messages gives way to new messages, a sequence number or the last
   * received message chosen in the metadata.
   */
  function StartFor(p: Properties, newOnly: Option<bool>, parsers: Parsers): Option<StanOption>
    requires StartOk(p, parsers)
  {
    if newOnly == Some(true) then Some(StartNewOnly)
    else
      match ChoiceOf(p)
      case New => Some(StartNewOnly)
      case Sequence => Some(StartAtSequence(parsers.uint(p["startAtSequence"]).value))
      case LastReceived => Some(StartWithLastReceived)
      case All => Some(DeliverAllAvailable)
      case TimeDelta =>
        var d := parsers.duration(p["startAtTimeDelta"]).value;
        if newOnly == Some(false) then Some(DeliverAllAvailable)
        else if d > 1 then Some(StartAtTimeDelta(d)) else None
      case Time =>
        if newOnly == Some(false) then Some(DeliverAllAvailable)
        else if TimeOf(p, parsers).Some? then Some(StartAtTime(TimeOf(p, parsers).value)) else None
      case ConnectWait => if newOnly == Some(false) then Some(DeliverAllAvailable) else None
      case Nothing => if newOnly == Some(false) then Some(DeliverAllAvailable) else None
  }

  /** A requested concurrency is a limit exactly when it is not zero, and is carried unchanged. */
  function LimitFor(p: Properties, concurrency: Option<int32>, parsers: Parsers): Option<int>
    requires CommonOk(p, parsers)
  {
    if concurrency.Some? then (if concurrency.value != 0 then Some(concurrency.value as int) else None)
    else if Given(p, "maxInFlight") then Some(ToInt(parsers.uint(p["maxInFlight"]).value))
    else None
  }

  function AckWaitFor(p: Properties, asked: Option<int>, parsers: Parsers): int
    requires CommonOk(p, parsers)
  {
    if asked.Some? then asked.value
    else if Given(p, "ackWaitTime") then parsers.duration(p["ackWaitTime"]).value
    else 0
  }

  /** The start time is used and cannot be parsed. */
  predicate BadTime(p: Properties, newOnly: Option<bool>, parsers: Parsers) {
    newOnly.None? && StartOk(p, parsers) && ChoiceOf(p) == Time && TimeOf(p, parsers).None?
  }

  lemma StartAgrees(m: Options, p: Properties, newOnly: Option<bool>, parsers: Parsers)
    requires StartOk(p, parsers) && StartSet(m, p, parsers)
    ensures
      var merged := m.(deliverNew := if newOnly == Some(true) then "true" else m.deliverNew,
                       deliverAll := if newOnly == Some(false) then "true" else m.deliverAll);
      StartFrom(merged, parsers) ==
      if BadTime(p, newOnly, parsers) then Err(BadStartTime) else Ok(StartFor(p, newOnly, parsers))
    ensures StartFor(p, newOnly, parsers).Some? ==> IsStart(StartFor(p, newOnly, parsers).value)
  {
    assert newOnly.Some? ==> newOnly == Some(newOnly.value) && (newOnly.value == true || newOnly.value == false);
  }

  lemma OnlyStartMatters(a: Options, b: Options, parsers: Parsers)
    requires a.deliverNew == b.deliverNew && a.deliverAll == b.deliverAll && a.startAtSequence == b.startAtSequence
    requires a.startWithLastReceived == b.startWithLastReceived && a.startAtTimeDelta == b.startAtTimeDelta
    requires a.startAtTime == b.startAtTime && a.startAtTimeFormat == b.startAtTimeFormat
    ensures StartFrom(a, parsers) == StartFrom(b, parsers)
  {
  }

  datatype Subscription =
    | TopicSubscription(options: seq<StanOption>)
    | QueueSubscription(group: string, options: seq<StanOption>)

  /**
   * What metadata and request ask for, up to the broker call. The merge cannot fail on accepted metadata.
   * Without a subscription type in the metadata and without a word on queue groups in the request
   * there is no subscription at all. A queue subscription joins the group of the metadata.
   */
  function SubscriptionFor(p: Properties, q: Request, parsers: Parsers): Result<Subscription, Error> {
    if !(CommonOk(p, parsers) && StartOk(p, parsers)) then Err(BadMetadata)
    else if BadTime(p, q.newOnly, parsers) then Err(BadStartTime)
    else if q.qGroup.None? && "subscriptionType" !in p then Err(NoSubscription)
    else
      var options := OptionList(DurableOf(Text(p, "durableSubscriptionName"), q.durable),
                                StartFor(p, q.newOnly, parsers), AckWaitFor(p, q.ackWait, parsers),
                                LimitFor(p, q.concurrency, parsers));
      if q.qGroup == Some(true) || (q.qGroup.None? && p["subscriptionType"] == "queue")
      then Ok(QueueSubscription(p["consumerID"], options))
      else Ok(TopicSubscription(options))
  }

  /** Init and Subscribe, with the source's order of checks. */
  method Subscribe(p: Properties, request: Option<Request>, parsers: Parsers)
    returns (r: Result<Subscription, Error>)
    ensures r == SubscriptionFor(p, if request.Some? then request.value else NO_REQUEST, parsers)
  {
    hide ChoiceOf, StartFrom, StartFor, StartOk, StartSet, OptionList, ToInt, ToUint64, BadTime;
    var parsed := ParseMetadata(p, parsers);
    if parsed.Err? {
      return Err(parsed.error);
    }
    var global := parsed.value;
    var merged := Merge(global, request);
    if merged.Err? {
      return Err(MissingQueueGroup);
    }
    ghost var q := if request.Some? then request.value else NO_REQUEST;
    StartAgrees(global, p, q.newOnly, parsers);
    OnlyStartMatters(merged.value,
                     global.(deliverNew := if q.newOnly == Some(true) then "true" else global.deliverNew,
                             deliverAll := if q.newOnly == Some(false) then "true" else global.deliverAll), parsers);
    if q.concurrency.Some? {
      ConversionsCancel(q.concurrency.value);
    }
    var options := Translate(merged.value, parsers);
    if options.Err? {
      return Err(options.error);
    }
    if merged.value.subscriptionType == "topic" {
      return Ok(TopicSubscription(options.value));
    } else if merged.value.subscriptionType == "queue" {
      return Ok(QueueSubscription(global.queueGroup, options.value));
    }
    return Err(NoSubscription);
  }

  /** The start options in the order in which they are looked at. */
  const START_KEYS := ["startAtSequence", "startWithLastReceived", "deliverAll", "deliverNew", "startAtTimeDelta",
                       "connectWait", "startAtTime"]
  const START_CHOICES := [Sequence, LastReceived, All, New, TimeDelta, ConnectWait, Time]

  /** A start option counts when it is present and, unless it is a mere flag, not empty. */
  predicate Counts(p: Properties, i: nat)
    requires i < 7
  {
    START_KEYS[i] in p && (p[START_KEYS[i]] != "" || i == 1 || i == 2 || i == 3)
  }

  /** The first start option that counts is chosen, and nothing if none does. */
  lemma FirstOneIsChosen(p: Properties, i: nat)
    requires i <= 7 && (forall j :: 0 <= j < i ==> !Counts(p, j)) && (i < 7 ==> Counts(p, i))
    ensures ChoiceOf(p) == if i < 7 then START_CHOICES[i] else Nothing
  {
    assert !(i > 0) || !Counts(p, 0);
    assert !(i > 1) || !Counts(p, 1);
    assert !(i > 2) || !Counts(p, 2);
    assert !(i > 3) || !Counts(p, 3);
    assert !(i > 4) || !Counts(p, 4);
    assert !(i > 5) || !Counts(p, 5);
    assert !(i > 6) || !Counts(p, 6);
  }

  predicate Missing(p: Properties, key: string) {
    key !in p || p[key] == ""
  }

  /** What is refused besides a bad start option: a missing key, an unknown type, a bad time or a bad limit. */
  lemma RefusedMetadata(p: Properties, q: Request, parsers: Parsers)
    requires
      || Missing(p, "natsURL") || Missing(p, "natsStreamingClusterID") || Missing(p, "consumerID")
      || ("subscriptionType" in p && p["subscriptionType"] != "topic" && p["subscriptionType"] != "queue")
      || (!Missing(p, "ackWaitTime") && parsers.duration(p["ackWaitTime"]).None?)
      || (!Missing(p, "maxInFlight") && parsers.uint(p["maxInFlight"]) in [None, Some(0)])
    ensures SubscriptionFor(p, q, parsers) == Err(BadMetadata)
  {
    hide StartOk, ChoiceOf;
  }

  lemma RequiredKeys()
    ensures "natsURL" != "natsStreamingClusterID" && "natsURL" != "consumerID" && "natsStreamingClusterID" != "consumerID"
  {
    assert |"natsURL"| == 7 && |"natsStreamingClusterID"| == 22 && |"consumerID"| == 10;
  }

  /** The required keys are told from a key by its first letter or its length. */
  lemma OtherKeys(key: string)
    requires key != "" && (key[0] !in {'n', 'c'} || key == "connectWait")
    ensures key !in ["natsURL", "natsStreamingClusterID", "consumerID"]
  {
    assert "natsURL"[0] == 'n' && "natsStreamingClusterID"[0] == 'n' && "consumerID"[0] == 'c';
    assert |"consumerID"| != |"connectWait"| && "connectWait"[0] == 'c';
  }

  /** Metadata with all it must have and nothing else is accepted, and a plain request then gets no subscription. */
  lemma AcceptedButNoSubscription(parsers: Parsers)
    ensures
      var p: Properties := map["natsURL" := "n", "natsStreamingClusterID" := "c", "consumerID" := "a"];
      && CommonOk(p, parsers) && StartOk(p, parsers)
      && SubscriptionFor(p, NO_REQUEST, parsers) == Err(NoSubscription)
  {
    var p: Properties := map["natsURL" := "n", "natsStreamingClusterID" := "c", "consumerID" := "a"];
    var others := ["subscriptionType", "ackWaitTime", "maxInFlight", "startAtSequence", "startWithLastReceived",
                   "deliverAll", "deliverNew", "startAtTimeDelta", "connectWait", "startAtTime"];
    forall i | 0 <= i < |others| ensures others[i] !in p {
      OtherKeys(others[i]);
    }
    assert others[0] !in p && others[1] !in p && others[2] !in p && others[3] !in p && others[4] !in p;
    assert others[5] !in p && others[6] !in p && others[7] !in p && others[8] !in p && others[9] !in p;
    RequiredKeys();
    assert p["natsURL"] == "n" && p["natsStreamingClusterID"] == "c" && p["consumerID"] == "a";
  }

  predicate Expected(durable: string, start: Option<StanOption>, ackWait: int, limit: Option<int>, o: StanOption) {
    match o
    case DurableName(name) => name == durable && durable != ""
    case AckWait(d) => d == ackWait && ackWait > 1
    case MaxInflight(n) => limit == Some(n)
    case ManualAck => true
    case _ => start == Some(o)
  }

  /** What is in an option list, kind by kind. */
  lemma OptionsListed(durable: string, start: Option<StanOption>, ackWait: int, limit: Option<int>, o: StanOption)
    requires start.Some? ==> IsStart(start.value)
    ensures o in OptionList(durable, start, ackWait, limit) <==> Expected(durable, start, ackWait, limit, o)
  {
  }

  lemma StartIs(p: Properties, newOnly: Option<bool>, parsers: Parsers)
    requires StartOk(p, parsers)
    ensures var start := StartFor(p, newOnly, parsers);
      && (start.Some? ==> IsStart(start.value))
      && (newOnly == Some(true) ==> start == Some(StartNewOnly))
      && (newOnly == Some(false) ==>
            (start == Some(DeliverAllAvailable) <==> ChoiceOf(p) !in {New, Sequence, LastReceived}))
  {
  }

  /** What every subscription asks of the broker, by what metadata and request say. */
  lemma SubscriptionPromises(p: Properties, q: Request, parsers: Parsers)
    requires CommonOk(p, parsers) && StartOk(p, parsers)
    ensures
      var options := OptionList(DurableOf(Text(p, "durableSubscriptionName"), q.durable),
                                StartFor(p, q.newOnly, parsers), AckWaitFor(p, q.ackWait, parsers),
                                LimitFor(p, q.concurrency, parsers));
      && Count(options, IsManualAck) == 1
      && Count(options, IsStart) <= 1 && Count(options, IsLimit) <= 1
      && (q.newOnly == Some(true) ==> StartNewOnly in options)
      && (q.newOnly == Some(false) ==>
            (DeliverAllAvailable in options <==> ChoiceOf(p) !in {New, Sequence, LastReceived}))
      && (q.concurrency.Some? ==>
            forall n :: MaxInflight(n) in options <==> n == q.concurrency.value as int && n != 0)
      && (q.concurrency.None? && Given(p, "maxInFlight") ==>
            MaxInflight(ToInt(parsers.uint(p["maxInFlight"]).value)) in options)
      // a durable name: none when refused, a default when asked for without a name, else the metadata's
      && (q.durable == Some(false) ==> forall n :: DurableName(n) !in options)
      && (q.durable == Some(true) && !Given(p, "durableSubscriptionName") ==>
            forall n :: DurableName(n) in options <==> n == "durable")
      && (q.durable != Some(false) && Given(p, "durableSubscriptionName") ==>
            forall n :: DurableName(n) in options <==> n == p["durableSubscriptionName"])
      && (q.durable == None && !Given(p, "durableSubscriptionName") ==> forall n :: DurableName(n) !in options)
      // an ack wait above one nanosecond: the request's, else the metadata's
      && (q.ackWait.Some? ==> forall d :: AckWait(d) in options <==> d == q.ackWait.value && d > 1)
      && (q.ackWait.None? && Given(p, "ackWaitTime") ==>
            forall d :: AckWait(d) in options <==> d == parsers.duration(p["ackWaitTime"]).value && d > 1)
      && (q.ackWait.None? && !Given(p, "ackWaitTime") ==> forall d :: AckWait(d) !in options)
  {
    hide Count, OptionList, StartFor, ChoiceOf, ToInt;
    var durable, start := DurableOf(Text(p, "durableSubscriptionName"), q.durable), StartFor(p, q.newOnly, parsers);
    var ackWait, limit := AckWaitFor(p, q.ackWait, parsers), LimitFor(p, q.concurrency, parsers);
    StartIs(p, q.newOnly, parsers);
    OneOfEach(durable, start, ackWait, limit);
    forall o: StanOption ensures o in OptionList(durable, start, ackWait, limit) <==> Expected(durable, start, ackWait, limit, o) {
      OptionsListed(durable, start, ackWait, limit, o);
    }
    assert q.durable.Some? ==> q.durable == Some(q.durable.value) && (q.durable.value == true || q.durable.value == false);
  }
}
