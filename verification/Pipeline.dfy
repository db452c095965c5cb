/** The synchronisation pipeline: `CloudSynchService.produce` and the ticks around it. */
module Pipeline {
  import opened Units
  import opened Numbers

  const QUEUE_SIZE := 1000
  const DEFAULT_READ_FREQUENCY := 120000
  const MAX_PING_INTERVAL := 180000
  const DEFAULT_PING_MS := 10

  const LOWER_M: Unit := 0x6D
  const LOWER_S: Unit := 0x73

  // ---------------------------------------------------------------- transports

  datatype Transport = Transport(frequency: Text, speed: int)

  /** By priority; the highest priority is 1. */
  type Transports = map<int, Transport>

  /** `replace` of a unit by nothing. */
  function Without(t: Text, c: Unit): (r: Text)
    ensures c !in r
  {
    if t == [] then [] else (if t[0] == c then [] else [t[0]]) + Without(t[1..], c)
  }

  function Scaled(n: Option<int>, factor: int): Option<int> {
    if n.Some? then Some(Wrap(n.value * factor)) else None
  }

  /** A frequency setting in milliseconds, or none if it does not parse. */
  function Millis(frequency: Text): Option<int> {
    if LOWER_M in frequency then Scaled(ParseInteger(Without(frequency, LOWER_M), LONG_MIN, LONG_MAX), 60000)
    else if LOWER_S in frequency then Scaled(ParseInteger(Without(frequency, LOWER_S), LONG_MIN, LONG_MAX), 1000)
    else ParseInteger(frequency, LONG_MIN, LONG_MAX)
  }

  // ---------------------------------------------------------------- the choice of a transport

  /** How the walk over the priorities ends, and the read frequency it leaves behind. */
  datatype Choice =
    | Chosen(priority: int, frequency: int)
    | Nobody(frequency: int)
    | Broken(frequency: int)   // a priority without transport, or a malformed frequency: an exception

  /** The walk from priority `p` on. */
  function Walk(ts: Transports, ping: int, p: int, frequency: int): Choice
    decreases |ts| + 1 - p
  {
    if p > |ts| then Nobody(frequency)
    else if p !in ts || Millis(ts[p].frequency).None? then Broken(frequency)
    else if ping <= ts[p].speed then Chosen(p, Millis(ts[p].frequency).value)
    else Walk(ts, ping, p + 1, Millis(ts[p].frequency).value)
  }

  predicate Usable(ts: Transports, p: int) {
    p in ts && Millis(ts[p].frequency).Some?
  }

  /** Priority `p` admits the ping, and every higher priority is there but too fast for it. */
  predicate FirstAdmitting(ts: Transports, ping: int, p: int) {
    && 1 <= p <= |ts| && Usable(ts, p) && ping <= ts[p].speed
    && forall q :: 1 <= q < p ==> Usable(ts, q) && ping > ts[q].speed
  }

  lemma {:induction false} WalkChoosesFirst(ts: Transports, ping: int, p: int, frequency: int)
    requires 1 <= p <= |ts| + 1 && forall q :: 1 <= q < p ==> Usable(ts, q) && ping > ts[q].speed
    ensures var c := Walk(ts, ping, p, frequency);
            && (c.Chosen? ==> FirstAdmitting(ts, ping, c.priority) && Millis(ts[c.priority].frequency) == Some(c.frequency))
            && (c.Nobody? ==> forall q :: 1 <= q <= |ts| ==> Usable(ts, q) && ping > ts[q].speed)
            && (c.Broken? ==> exists q :: 1 <= q <= |ts| && !Usable(ts, q))
    decreases |ts| + 1 - p
  {
    hide Millis;
    if p <= |ts| {
      if !Usable(ts, p) {
      } else if ping > ts[p].speed {
        WalkChoosesFirst(ts, ping, p + 1, Millis(ts[p].frequency).value);
      }
    }
  }

  /** The walk ends at a priority exactly when that priority is the first to admit the ping. */
  lemma ChosenIffFirst(ts: Transports, ping: int, p: int, frequency: int)
    ensures (exists f :: Walk(ts, ping, 1, frequency) == Chosen(p, f)) <==> FirstAdmitting(ts, ping, p)
  {
    hide Millis, Walk;
    WalkChoosesFirst(ts, ping, 1, frequency);
    var c := Walk(ts, ping, 1, frequency);
    if FirstAdmitting(ts, ping, p) {
      WalkReaches(ts, ping, 1, p, frequency);
    }
  }

  lemma {:induction false} WalkReaches(ts: Transports, ping: int, p: int, target: int, frequency: int)
    requires 1 <= p <= target && FirstAdmitting(ts, ping, target)
    ensures Walk(ts, ping, p, frequency) == Chosen(target, Millis(ts[target].frequency).value)
    decreases target - p
  {
    hide Millis;
    if p < target {
      assert Usable(ts, p);
      WalkReaches(ts, ping, p + 1, target, Millis(ts[p].frequency).value);
    }
  }

  // ---------------------------------------------------------------- steps

  datatype State = State(
    queue: seq<Text>,
    readFrequency: int,
    pingms: int,
    inProcess: bool,
    nextPing: int,
    nextProduction: int,
    pingerStopped: bool,
    producerStopped: bool)

  /** What a hand-over looked like: the tick that led to it, and the reading of the clock after it. */
  datatype Handover = Handover(file: Text, priority: int, frequency: int, ping: int, tick: int, sent: int)

  /**
   * The steps, with the readings of the clock they make in order. A file is extracted; the pinger ticks and measures, or
   * fails to; the producer ticks, chooses a transport, and sends.
   */
  datatype Event =
    | Extract(file: Text)
    | PingTick(tick: int, measured: Option<int>, done: int)
    | ProducerTick(tick: int, chosen: int, sent: int)

  function Soonest(readFrequency: int): int {
    if readFrequency > MAX_PING_INTERVAL then MAX_PING_INTERVAL else readFrequency
  }

  function AfterExtract(s: State, file: Text): State {
    if |s.queue| == QUEUE_SIZE then s else s.(queue := s.queue + [file])
  }

  function AfterPing(s: State, tick: int, measured: Option<int>, done: int): State {
    if tick < s.nextPing || s.pingerStopped then s
    else s.(pingms := if measured.Some? then measured.value else s.pingms,
            pingerStopped := measured.None?,
            nextPing := Wrap(done + Soonest(s.readFrequency)))
  }

  function Started(s: State): State {
    s.(inProcess := s.inProcess || s.queue != [])
  }

  /** `produce`, up to the exception it may end with. */
  function AfterProduce(ts: Transports, s: State, chosen: int, sent: int): State {
    var c := Walk(ts, s.pingms, 1, s.readFrequency);
    var s' := Started(s).(readFrequency := c.frequency);
    match c
    case Broken(_) => s'
    case Nobody(_) => s'
    case Chosen(_, f) =>
      var timed := s'.(nextPing := Wrap(chosen + Soonest(f)), nextProduction := Wrap(sent + f));
      if s.queue == [] then timed.(inProcess := false) else timed.(queue := s.queue[1..])
  }

  predicate Ticks(s: State, tick: int) {
    tick >= s.nextProduction && !s.producerStopped
  }

  function AfterProducerTick(ts: Transports, s: State, tick: int, chosen: int, sent: int): State {
    if !Ticks(s, tick) then s
    else AfterProduce(ts, s, chosen, sent).(producerStopped := Walk(ts, s.pingms, 1, s.readFrequency).Broken?)
  }

  function HandedOver(ts: Transports, s: State, tick: int, sent: int): seq<Handover> {
    var c := Walk(ts, s.pingms, 1, s.readFrequency);
    if Ticks(s, tick) && c.Chosen? && s.queue != []
    then [Handover(s.queue[0], c.priority, c.frequency, s.pingms, tick, sent)] else []
  }

  // ---------------------------------------------------------------- runs

  /** A state with its history: the files taken into the queue and those handed over. */
  datatype Trace = Trace(state: State, enqueued: seq<Text>, handed: seq<Handover>)

  function Step(ts: Transports, t: Trace, e: Event): Trace {
    match e
    case Extract(file) =>
      t.(state := AfterExtract(t.state, file),
         enqueued := t.enqueued + if |t.state.queue| == QUEUE_SIZE then [] else [file])
    case PingTick(tick, measured, done) => t.(state := AfterPing(t.state, tick, measured, done))
    case ProducerTick(tick, chosen, sent) =>
      t.(state := AfterProducerTick(ts, t.state, tick, chosen, sent),
         handed := t.handed + HandedOver(ts, t.state, tick, sent))
  }

  function Initial(start: int): Trace {
    Trace(State([], DEFAULT_READ_FREQUENCY, DEFAULT_PING_MS, false, start, start, false, false), [], [])
  }

  function Run(ts: Transports, start: int, events: seq<Event>): Trace {
    if events == [] then Initial(start)
    else Step(ts, Run(ts, start, events[..|events| - 1]), events[|events| - 1])
  }

  function FilesOf(handed: seq<Handover>): (files: seq<Text>)
    ensures |files| == |handed|
  {
    if handed == [] then [] else FilesOf(handed[..|handed| - 1]) + [handed[|handed| - 1].file]
  }

  /** Files handed over and files still queued are the files enqueued, in order, after every run. */
  lemma {:induction false} NothingLost(ts: Transports, start: int, events: seq<Event>)
    ensures var t := Run(ts, start, events);
            && FilesOf(t.handed) + t.state.queue == t.enqueued
            && |t.state.queue| <= QUEUE_SIZE
  {
    if events != [] {
      var n := |events| - 1;
      NothingLost(ts, start, events[..n]);
      StepKeepsFiles(ts, Run(ts, start, events[..n]), events[n]);
    }
  }

  lemma OneMoreFile(handed: seq<Handover>, h: Handover)
    ensures FilesOf(handed + [h]) == FilesOf(handed) + [h.file]
  {
    assert (handed + [h])[..|handed|] == handed;
  }

  /** A producer tick takes from the queue what it hands over. */
  lemma TakesWhatItHands(ts: Transports, s: State, tick: int, chosen: int, sent: int)
    ensures var h := HandedOver(ts, s, tick, sent);
            && |h| <= 1
            && AfterProducerTick(ts, s, tick, chosen, sent).queue == s.queue[|h|..]
            && (h != [] ==> s.queue != [] && h[0].file == s.queue[0])
  {
    hide Millis, Walk;
  }

  lemma FilesKept(enqueued: seq<Text>, handed: seq<Handover>, q: seq<Text>, h: seq<Handover>)
    requires FilesOf(handed) + q == enqueued && |h| <= 1 && (h != [] ==> q != [] && h[0].file == q[0])
    ensures |h| <= |q| && FilesOf(handed + h) + q[|h|..] == enqueued
  {
    if h == [] {
      assert handed + h == handed && q[0..] == q;
    } else {
      assert h == [h[0]];
      OneMoreFile(handed, h[0]);
      Regrouped(FilesOf(handed), [q[0]], q[1..]);
      assert q == [q[0]] + q[1..];
    }
  }

  lemma StepKeepsFiles(ts: Transports, t: Trace, e: Event)
    requires FilesOf(t.handed) + t.state.queue == t.enqueued && |t.state.queue| <= QUEUE_SIZE
    ensures var t' := Step(ts, t, e);
            FilesOf(t'.handed) + t'.state.queue == t'.enqueued && |t'.state.queue| <= QUEUE_SIZE
  {
    hide FilesOf, Walk, AfterProducerTick, HandedOver;
    match e
    case Extract(file) =>
      Regrouped(FilesOf(t.handed), t.state.queue, [file]);
    case PingTick(_, _, _) =>
    case ProducerTick(tick, chosen, sent) =>
      TakesWhatItHands(ts, t.state, tick, chosen, sent);
      FilesKept(t.enqueued, t.handed, t.state.queue, HandedOver(ts, t.state, tick, sent));
  }

  /** Every hand-over went by the first priority whose limit admits the ping measured last, at its frequency. */
  lemma {:induction false} HandoversAreFirst(ts: Transports, start: int, events: seq<Event>, i: nat)
    requires i < |Run(ts, start, events).handed|
    ensures var h := Run(ts, start, events).handed[i];
            FirstAdmitting(ts, h.ping, h.priority) && Millis(ts[h.priority].frequency) == Some(h.frequency)
  {
    hide Millis, Walk;
    if events != [] {
      var n := |events| - 1;
      var t := Run(ts, start, events[..n]);
      if i < |t.handed| {
        HandoversAreFirst(ts, start, events[..n], i);
      } else {
        WalkChoosesFirst(ts, t.state.pingms, 1, t.state.readFrequency);
      }
    }
  }

  /** What was measured last by a pinger that was due and had not stopped; ten milliseconds to begin with. */
  function LastMeasured(ts: Transports, start: int, events: seq<Event>): int {
    if events == [] then 10
    else
      var n := |events| - 1;
      match events[n]
      case PingTick(tick, Some(ping), _) =>
        var s := Run(ts, start, events[..n]).state;
        if s.nextPing <= tick && !s.pingerStopped then ping else LastMeasured(ts, start, events[..n])
      case _ => LastMeasured(ts, start, events[..n])
  }

  lemma {:induction false} HasLastMeasured(ts: Transports, start: int, events: seq<Event>)
    ensures Run(ts, start, events).state.pingms == LastMeasured(ts, start, events)
  {
    hide Millis, Walk;
    if events != [] {
      HasLastMeasured(ts, start, events[..|events| - 1]);
    }
  }

  /** The ping that a hand-over went by is the one measured last before the tick of the producer that led to it. */
  lemma {:induction false} HandoverPing(ts: Transports, start: int, events: seq<Event>, i: nat) returns (k: nat)
    requires i < |Run(ts, start, events).handed|
    ensures k < |events| && events[k].ProducerTick?
    ensures var h := Run(ts, start, events).handed[i];
            && h.ping == LastMeasured(ts, start, events[..k])
            && h.tick == events[k].tick && h.sent == events[k].sent
            && |Run(ts, start, events[..k]).handed| == i
            && Run(ts, start, events[..k]).state.queue != [] && h.file == Run(ts, start, events[..k]).state.queue[0]
  {
    hide Millis, Walk, LastMeasured;
    var n := |events| - 1;
    var t := Run(ts, start, events[..n]);
    if i < |t.handed| {
      k := HandoverPing(ts, start, events[..n], i);
      assert events[..n][..k] == events[..k];
    } else {
      k := n;
      HasLastMeasured(ts, start, events[..n]);
    }
  }

  // ---------------------------------------------------------------- spacing

  function FirstReading(e: Event, clock: int): int {
    match e
    case Extract(_) => clock
    case PingTick(tick, _, _) => tick
    case ProducerTick(tick, _, _) => tick
  }

  function LastReading(e: Event, clock: int): int {
    match e
    case Extract(_) => clock
    case PingTick(_, _, done) => done
    case ProducerTick(_, _, sent) => sent
  }

  /** The clock after a run. */
  function Clock(start: int, events: seq<Event>): int {
    if events == [] then start
    else LastReading(events[|events| - 1], Clock(start, events[..|events| - 1]))
  }

  predicate Ordered(e: Event) {
    match e
    case Extract(_) => true
    case PingTick(tick, _, done) => tick <= done
    case ProducerTick(tick, chosen, sent) => tick <= chosen <= sent <= LONG_MAX
  }

  /** The clock never goes back, and fits a `long`. */
  predicate Monotone(start: int, events: seq<Event>) {
    events != [] ==>
      var n := |events| - 1;
      && Monotone(start, events[..n]) && Ordered(events[n])
      && Clock(start, events[..n]) <= FirstReading(events[n], Clock(start, events[..n]))
  }

  predicate Due(t: Trace, clock: int) {
    t.handed != [] ==>
      var h := t.handed[|t.handed| - 1];
      && LONG_MIN <= h.frequency
      && (h.sent + h.frequency <= LONG_MAX ==> h.sent + h.frequency <= (if clock > t.state.nextProduction then clock else t.state.nextProduction))
      && h.sent <= clock
  }

  predicate WellSpaced(h: Handover, next: Handover) {
    next.tick >= h.sent + h.frequency
  }

  /**
   * The tick of a hand-over comes no earlier than the sending of the hand-over before it plus the frequency of that
   * transport: exactly when this sum is a `long`.
   */
  lemma {:induction false} HandoversApart(ts: Transports, start: int, events: seq<Event>, i: nat)
    requires Monotone(start, events) && LONG_MIN <= start
    requires i + 1 < |Run(ts, start, events).handed|
    ensures var hs := Run(ts, start, events).handed;
            WellSpaced(hs[i], hs[i + 1]) <==> hs[i].sent + hs[i].frequency <= LONG_MAX
  {
    hide Step, WellSpaced, Due, Ordered;
    if events != [] {
      var n := |events| - 1;
      var t := Run(ts, start, events[..n]);
      StillReadable(ts, start, events[..n]);
      AlwaysDue(ts, start, events[..n]);
      HandsOn(ts, t, events[n]);
      if i + 1 < |t.handed| {
        HandoversApart(ts, start, events[..n], i);
      } else {
        NextIsSpaced(ts, t, Clock(start, events[..n]), events[n]);
      }
    }
  }

  /** A step adds at most one to what was handed over. */
  lemma HandsOn(ts: Transports, t: Trace, e: Event)
    ensures var after := Step(ts, t, e).handed;
            |t.handed| <= |after| <= |t.handed| + 1 && after[..|t.handed|] == t.handed
  {
    hide Walk, Millis, AfterProducerTick, AfterPing, AfterExtract;
  }

  lemma NextIsSpaced(ts: Transports, t: Trace, clock: int, e: Event)
    requires Due(t, clock) && Ordered(e) && clock <= FirstReading(e, clock) && LONG_MIN <= clock
    requires t.handed != [] && |Step(ts, t, e).handed| == |t.handed| + 1
    ensures var h := t.handed[|t.handed| - 1];
            WellSpaced(h, Step(ts, t, e).handed[|t.handed|]) <==> h.sent + h.frequency <= LONG_MAX
  {
    hide Walk, Millis, AfterProducerTick, AfterPing, AfterExtract;
  }

  // ---------------------------------------------------------------- minutes and seconds

  lemma {:induction false} WithoutLast(t: Text, c: Unit)
    requires c !in t
    ensures Without(t + [c], c) == t
  {
    if t == [] {
      assert t + [c] == [c] && [c][1..] == [];
    } else {
      assert (t + [c])[1..] == t[1..] + [c];
      WithoutLast(t[1..], c);
    }
  }

  lemma DigitsParse(t: Text, n: int)
    requires n >= 0 && t != [] && AllDigits(t) && AllAscii(t) && DigitsValue(t) == n
    ensures 0x6D !in t && 0x73 !in t && MINUS !in t && PLUS !in t
    ensures ParseInteger(t, LONG_MIN, LONG_MAX) == if n <= LONG_MAX then Some(n) else None
    ensures ParseInteger([MINUS] + t, LONG_MIN, LONG_MAX) == if LONG_MIN <= -n then Some(-n) else None
    ensures ParseInteger([PLUS] + t, LONG_MIN, LONG_MAX) == if n <= LONG_MAX then Some(n) else None
  {
    hide DigitsValue;
    forall c | c in t
      ensures c != 0x6D && c != 0x73 && c != MINUS && c != PLUS
    {
      var i :| 0 <= i < |t| && t[i] == c;
      assert IsDigit(t[i]) && t[i] < 0x80;
    }
    hide AllDigits, AllAscii;
    assert t[0] in t;
    assert ([MINUS] + t)[1..] == t && ([PLUS] + t)[1..] == t;
  }

  /** A printed number has no letter in it, and parses as itself. */
  lemma PrintedParses(n: int)
    ensures 0x6D !in PrintInt(n) && 0x73 !in PrintInt(n)
    ensures ParseInteger(PrintInt(n), LONG_MIN, LONG_MAX) == if LONG_MIN <= n <= LONG_MAX then Some(n) else None
  {
    hide DigitsValue, Digits, ParseInteger;
    var a := if n < 0 then -n else n;
    DigitsHaveTheirValue(a);
    DigitsParse(Digits(a), a);
    assert PrintInt(n) == if n < 0 then [MINUS] + Digits(a) else Digits(a);
  }

  /** A frequency is a number of minutes with an `m`, of seconds with an `s`, or of milliseconds. */
  lemma FrequencyUnits(n: int)
    ensures Millis(PrintInt(n) + [0x6D]) == if LONG_MIN <= n <= LONG_MAX then Some(Wrap(n * 60000)) else None
    ensures Millis(PrintInt(n) + [0x73]) == if LONG_MIN <= n <= LONG_MAX then Some(Wrap(n * 1000)) else None
    ensures Millis(PrintInt(n)) == if LONG_MIN <= n <= LONG_MAX then Some(n) else None
  {
    hide ParseInteger, PrintInt, Wrap, Without;
    PrintedParses(n);
    WithoutLast(PrintInt(n), 0x6D);
    WithoutLast(PrintInt(n), 0x73);
    assert (PrintInt(n) + [0x6D])[|PrintInt(n)|] == 0x6D && (PrintInt(n) + [0x73])[|PrintInt(n)|] == 0x73;
  }

  /**
   * The next hand-over comes no earlier than that many minutes, seconds or milliseconds after the sending of the one before,
   * exactly when that sum is a `long`; `unit` is the length of one of them.
   */
  lemma HandoversByUnit(ts: Transports, start: int, events: seq<Event>, i: nat, n: int, letter: Text, unit: int)
    requires Monotone(start, events) && LONG_MIN <= start
    requires i + 1 < |Run(ts, start, events).handed|
    requires (letter, unit) in {([0x6D], 60000), ([0x73], 1000), ([], 1)}
    requires LONG_MIN <= n <= LONG_MAX && LONG_MIN <= n * unit <= LONG_MAX
    requires var p := Run(ts, start, events).handed[i].priority; p in ts && ts[p].frequency == PrintInt(n) + letter
    ensures var hs := Run(ts, start, events).handed;
            hs[i + 1].tick >= hs[i].sent + n * unit <==> hs[i].sent + n * unit <= LONG_MAX
  {
    hide Millis, Run, Monotone, PrintInt, FirstAdmitting;
    HandoversAreFirst(ts, start, events, i);
    HandoversApart(ts, start, events, i);
    FrequencyUnits(n);
    assert PrintInt(n) + [] == PrintInt(n);
    var hs := Run(ts, start, events).handed;
    assert hs[i].frequency == n * unit;
  }

  const LONG_FREQUENCY: Text := PrintInt(LONG_MAX)

  lemma LongFrequencyParses()
    ensures Millis(LONG_FREQUENCY) == Some(LONG_MAX)
  {
    DigitsHaveTheirValue(LONG_MAX);
    assert LONG_FREQUENCY == Digits(LONG_MAX);
    NoLetters(LONG_FREQUENCY);
    assert IsDigit(LONG_FREQUENCY[0]);
  }

  lemma NoLetters(t: Text)
    requires AllDigits(t) && AllAscii(t)
    ensures LOWER_M !in t && LOWER_S !in t
  {
    forall i | 0 <= i < |t|
      ensures t[i] != LOWER_M && t[i] != LOWER_S
    {
      assert IsDigit(t[i]) && t[i] < 0x80;
    }
  }

  lemma TwoExtracted(ts: Transports, a: Text, b: Text)
    ensures var events := [Extract(a), Extract(b)];
            && Monotone(0, events) && Clock(0, events) == 0
            && Run(ts, 0, events) ==
               Trace(State([a, b], DEFAULT_READ_FREQUENCY, DEFAULT_PING_MS, false, 0, 0, false, false), [a, b], [])
  {
    var e := [Extract(a), Extract(b)];
    assert e[..1] == [e[0]] && [e[0]][..0] == [];
    assert Monotone(0, []) && Monotone(0, [e[0]]);
    assert Run(ts, 0, [e[0]]).state.queue == [a];
  }

  lemma HandsOver(ts: Transports, t: Trace, file: Text, rest: seq<Text>)
    requires ts == map[1 := Transport(LONG_FREQUENCY, DEFAULT_PING_MS)]
    requires t.state.queue == [file] + rest && t.state.pingms == DEFAULT_PING_MS && Ticks(t.state, 1)
    ensures var after := Step(ts, t, ProducerTick(1, 1, 1));
            && after.handed == t.handed + [Handover(file, 1, LONG_MAX, DEFAULT_PING_MS, 1, 1)]
            && after.state.queue == rest && after.state.pingms == DEFAULT_PING_MS && Ticks(after.state, 1)
  {
    LongFrequencyParses();
    hide Millis;
    assert |ts| == 1;
    assert Walk(ts, DEFAULT_PING_MS, 1, t.state.readFrequency) == Chosen(1, LONG_MAX);
    assert Wrap(1 + LONG_MAX) == LONG_MIN;
  }

  /** The greatest frequency of all: two files go out at the same reading of the clock. */
  lemma OverflowHandsOverAtOnce(a: Text, b: Text)
    ensures var ts := map[1 := Transport(LONG_FREQUENCY, DEFAULT_PING_MS)];
            var events := [Extract(a), Extract(b), ProducerTick(1, 1, 1), ProducerTick(1, 1, 1)];
            var hs := Run(ts, 0, events).handed;
            && Monotone(0, events) && |hs| == 2 && hs[0].file == a && hs[1].file == b
            && hs[0].sent == hs[1].tick && !WellSpaced(hs[0], hs[1])
  {
    hide Millis, Walk, Wrap, Step;
    var ts := map[1 := Transport(LONG_FREQUENCY, DEFAULT_PING_MS)];
    var tick := ProducerTick(1, 1, 1);
    var e2: seq<Event>, e3: seq<Event>, e4: seq<Event> :=
      [Extract(a), Extract(b)], [Extract(a), Extract(b), tick], [Extract(a), Extract(b), tick, tick];
    assert e4[..3] == e3 && e3[..2] == e2;
    TwoExtracted(ts, a, b);
    HandsOver(ts, Run(ts, 0, e2), a, [b]);
    assert [b] + [] == [b];
    HandsOver(ts, Run(ts, 0, e3), b, []);
    assert Monotone(0, e3) && Clock(0, e3) == 1;
  }

  lemma StillReadable(ts: Transports, start: int, events: seq<Event>)
    requires Monotone(start, events) && LONG_MIN <= start
    ensures LONG_MIN <= Clock(start, events)
  {
    if events != [] {
      StillReadable(ts, start, events[..|events| - 1]);
    }
  }

  lemma MillisAreLong(frequency: Text)
    ensures Millis(frequency).Some? ==> LONG_MIN <= Millis(frequency).value <= LONG_MAX
  {
  }

  lemma {:induction false} AlwaysDue(ts: Transports, start: int, events: seq<Event>)
    requires Monotone(start, events) && LONG_MIN <= start
    ensures Due(Run(ts, start, events), Clock(start, events))
  {
    if events != [] {
      var n := |events| - 1;
      AlwaysDue(ts, start, events[..n]);
      StillReadable(ts, start, events[..n]);
      StepKeepsDue(ts, Run(ts, start, events[..n]), Clock(start, events[..n]), events[n]);
    }
  }

  lemma StepKeepsDue(ts: Transports, t: Trace, clock: int, e: Event)
    requires Due(t, clock) && Ordered(e) && clock <= FirstReading(e, clock) && LONG_MIN <= clock
    ensures Due(Step(ts, t, e), LastReading(e, clock))
  {
    hide Millis, Walk;
    if e.ProducerTick? && Ticks(t.state, e.tick) {
      var c := Walk(ts, t.state.pingms, 1, t.state.readFrequency);
      WalkChoosesFirst(ts, t.state.pingms, 1, t.state.readFrequency);
      if c.Chosen? {
        MillisAreLong(ts[c.priority].frequency);
      }
    }
  }

  /** With priorities from 1 on without gaps and frequencies that parse, the producer never stops. */
  lemma {:induction false} ProducerGoesOn(ts: Transports, start: int, events: seq<Event>)
    requires forall p :: 1 <= p <= |ts| ==> Usable(ts, p)
    ensures !Run(ts, start, events).state.producerStopped
  {
    hide Millis, Walk;
    if events != [] {
      var t := Run(ts, start, events[..|events| - 1]);
      ProducerGoesOn(ts, start, events[..|events| - 1]);
      WalkChoosesFirst(ts, t.state.pingms, 1, t.state.readFrequency);
    }
  }

  // ---------------------------------------------------------------- the settings, and the next times

  /** A run begins with two minutes between readings and a ping of ten milliseconds. */
  lemma BeginsWith(ts: Transports, start: int)
    ensures Run(ts, start, []) == Trace(State([], 120000, 10, false, start, start, false, false), [], [])
  {
  }

  /** A file is taken in exactly if fewer than a thousand are waiting. */
  lemma TakenIn(ts: Transports, start: int, events: seq<Event>, file: Text)
    ensures var t := Run(ts, start, events);
            && |t.state.queue| <= 1000
            && Run(ts, start, events + [Extract(file)]).enqueued == t.enqueued + if |t.state.queue| < 1000 then [file] else []
  {
    NothingLost(ts, start, events);
    assert (events + [Extract(file)])[..|events|] == events;
  }

  predicate Measures(s: State, e: Event) {
    e.PingTick? && s.nextPing <= e.tick && !s.pingerStopped
  }

  /** The producer is due, and the first priority to admit the ping has the frequency `f`. */
  ghost predicate Chooses(ts: Transports, s: State, e: Event, f: int) {
    && e.ProducerTick? && s.nextProduction <= e.tick && !s.producerStopped
    && exists p :: FirstAdmitting(ts, s.pingms, p) && Millis(ts[p].frequency) == Some(f)
  }

  /** The next ping is put off, as seen from one reading of the clock, at one read frequency. */
  ghost predicate PutsOff(ts: Transports, s: State, e: Event, since: int, f: int) {
    (Measures(s, e) && since == e.done && f == s.readFrequency) || (Chooses(ts, s, e, f) && since == e.chosen)
  }

  lemma WalkChooses(ts: Transports, s: State, e: Event)
    requires e.ProducerTick? && Ticks(s, e.tick)
    ensures var c := Walk(ts, s.pingms, 1, s.readFrequency);
            && (c.Chosen? ==> Chooses(ts, s, e, c.frequency))
            && forall f :: Chooses(ts, s, e, f) ==> c.Chosen? && c.frequency == f
  {
    WalkChoosesFirst(ts, s.pingms, 1, s.readFrequency);
    hide Millis, Walk, FirstAdmitting;
    forall f | Chooses(ts, s, e, f)
      ensures var c := Walk(ts, s.pingms, 1, s.readFrequency); c.Chosen? && c.frequency == f
    {
      var p :| FirstAdmitting(ts, s.pingms, p) && Millis(ts[p].frequency) == Some(f);
      FirstIsAtLeastOne(ts, s.pingms, p);
      WalkReaches(ts, s.pingms, 1, p, s.readFrequency);
    }
  }

  lemma FirstIsAtLeastOne(ts: Transports, ping: int, p: int)
    requires FirstAdmitting(ts, ping, p)
    ensures 1 <= p
  {
  }

  lemma StepPutsOff(ts: Transports, t: Trace, e: Event, since: int, f: int)
    ensures PutsOff(ts, t.state, e, since, f) ==> Step(ts, t, e).state.nextPing == Wrap(since + if f < 180000 then f else 180000)
    ensures (forall c, g :: !PutsOff(ts, t.state, e, c, g)) ==> Step(ts, t, e).state.nextPing == t.state.nextPing
    ensures Chooses(ts, t.state, e, f) ==> Step(ts, t, e).state.nextProduction == Wrap(e.sent + f)
    ensures (forall g :: !Chooses(ts, t.state, e, g)) ==> Step(ts, t, e).state.nextProduction == t.state.nextProduction
  {
    hide Walk, Wrap, FirstAdmitting, Millis;
    var s := t.state;
    if e.PingTick? {
      assert Measures(s, e) ==> PutsOff(ts, s, e, e.done, s.readFrequency);
    } else if e.ProducerTick? && Ticks(s, e.tick) {
      TickPutsOff(ts, s, e, f);
      hide Chooses;
      assert PutsOff(ts, s, e, since, f) ==> Chooses(ts, s, e, f) && since == e.chosen;
      assert forall g :: Chooses(ts, s, e, g) ==> PutsOff(ts, s, e, e.chosen, g);
    }
  }

  lemma TickPutsOff(ts: Transports, s: State, e: Event, f: int)
    requires e.ProducerTick? && Ticks(s, e.tick)
    ensures var after := AfterProducerTick(ts, s, e.tick, e.chosen, e.sent);
            && (Chooses(ts, s, e, f) ==>
                  after.nextPing == Wrap(e.chosen + if f < 180000 then f else 180000) && after.nextProduction == Wrap(e.sent + f))
            && ((forall g :: !Chooses(ts, s, e, g)) ==> after.nextPing == s.nextPing && after.nextProduction == s.nextProduction)
  {
    hide Walk, Wrap, Chooses, AfterProducerTick, Soonest;
    WalkChooses(ts, s, e);
    TimesAfter(ts, s, e.tick, e.chosen, e.sent);
    SoonestIs(f);
  }

  lemma SoonestIs(f: int)
    ensures Soonest(f) == if f < 180000 then f else 180000
  {
  }

  lemma TimesAfter(ts: Transports, s: State, tick: int, chosen: int, sent: int)
    requires Ticks(s, tick)
    ensures var c, after := Walk(ts, s.pingms, 1, s.readFrequency), AfterProducerTick(ts, s, tick, chosen, sent);
            && after.nextPing == (if c.Chosen? then Wrap(chosen + Soonest(c.frequency)) else s.nextPing)
            && after.nextProduction == if c.Chosen? then Wrap(sent + c.frequency) else s.nextProduction
  {
    hide Walk, Wrap, Soonest;
  }

  /**
   * The next ping is measured no earlier than the read frequency, and at most three minutes, after the last one or after the
   * choice of a transport since, if that sum is a `long`.
   */
  lemma {:induction false} PingsApart(ts: Transports, start: int, events: seq<Event>, i: nat, since: int, f: int, e: Event)
    requires i < |events| && PutsOff(ts, Run(ts, start, events[..i]).state, events[i], since, f)
    requires forall j, c, g :: i < j < |events| ==> !PutsOff(ts, Run(ts, start, events[..j]).state, events[j], c, g)
    ensures var next := since + if f < 180000 then f else 180000;
            && Run(ts, start, events).state.nextPing == Wrap(next)
            && (Measures(Run(ts, start, events).state, e) && LONG_MIN <= next <= LONG_MAX ==> next <= e.tick)
  {
    hide PutsOff, Step;
    var n := |events| - 1;
    StepPutsOff(ts, Run(ts, start, events[..n]), events[n], since, f);
    if i < n {
      assert forall j :: 0 <= j <= n ==> events[..n][..j] == events[..j];
      PingsApart(ts, start, events[..n], i, since, f, e);
    }
  }

  /** The producer is due again no earlier than the frequency after the sending, whether there was a file to send or not. */
  lemma {:induction false} ChoicesApart(ts: Transports, start: int, events: seq<Event>, i: nat, f: int, e: Event)
    requires i < |events| && Chooses(ts, Run(ts, start, events[..i]).state, events[i], f)
    requires forall j, g :: i < j < |events| ==> !Chooses(ts, Run(ts, start, events[..j]).state, events[j], g)
    ensures var next := events[i].sent + f;
            && Run(ts, start, events).state.nextProduction == Wrap(next)
            && forall g :: Chooses(ts, Run(ts, start, events).state, e, g) && LONG_MIN <= next <= LONG_MAX ==> next <= e.tick
  {
    hide Step, FirstAdmitting, Millis;
    var n := |events| - 1;
    StepPutsOff(ts, Run(ts, start, events[..n]), events[n], 0, f);
    if i < n {
      assert forall j :: 0 <= j <= n ==> events[..n][..j] == events[..j];
      ChoicesApart(ts, start, events[..n], i, f, e);
    }
  }

  predicate HasFrequency(ts: Transports, p: int, f: int) {
    p in ts && Millis(ts[p].frequency) == Some(f)
  }

  /** The first priority that cannot be used is `q`, and the frequency is that of the priority before it, or else the old one. */
  predicate BreaksAt(ts: Transports, q: int, was: int, f: int) {
    && 1 <= q <= |ts| && !Usable(ts, q) && (forall r :: 1 <= r < q ==> Usable(ts, r))
    && if q == 1 then f == was else HasFrequency(ts, q - 1, f)
  }

  /** A walk that finds nobody leaves the frequency of the lowest priority, a broken one that of the priority before. */
  lemma FrequencyLeft(ts: Transports, ping: int, was: int)
    ensures var c := Walk(ts, ping, 1, was);
            && (c.Nobody? ==> if |ts| == 0 then c.frequency == was else HasFrequency(ts, |ts|, c.frequency))
            && (c.Broken? ==> exists q :: BreaksAt(ts, q, was, c.frequency))
  {
    FrequencyLeftFrom(ts, ping, 1, was, was);
  }

  lemma {:induction false} FrequencyLeftFrom(ts: Transports, ping: int, p: int, was: int, frequency: int)
    requires 1 <= p <= |ts| + 1 && forall q :: 1 <= q < p ==> Usable(ts, q)
    requires if p == 1 then frequency == was else HasFrequency(ts, p - 1, frequency)
    ensures var c := Walk(ts, ping, p, frequency);
            && (c.Nobody? ==> if |ts| == 0 then c.frequency == was else HasFrequency(ts, |ts|, c.frequency))
            && (c.Broken? ==> exists q :: BreaksAt(ts, q, was, c.frequency))
    decreases |ts| + 1 - p
  {
    hide Millis;
    if p <= |ts| {
      if !Usable(ts, p) {
        assert BreaksAt(ts, p, was, frequency);
      } else if ping > ts[p].speed {
        FrequencyLeftFrom(ts, ping, p + 1, was, Millis(ts[p].frequency).value);
      }
    }
  }

  /** A service is in process while it has files, as far as the producer has looked. */
  lemma InProcessWhileFiles(ts: Transports, s: State, tick: int, chosen: int, sent: int)
    requires Ticks(s, tick)
    ensures AfterProducerTick(ts, s, tick, chosen, sent).inProcess <==>
            s.queue != [] || (s.inProcess && forall p :: !FirstAdmitting(ts, s.pingms, p))
  {
    WalkChoosesFirst(ts, s.pingms, 1, s.readFrequency);
    hide Millis, Walk, FirstAdmitting;
    if p :| FirstAdmitting(ts, s.pingms, p) {
      ChosenIffFirst(ts, s.pingms, p, s.readFrequency);
    }
  }
}
