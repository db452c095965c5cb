/** `CloudSynchService`, with its queue, its table of next times and its ticks. */
module SynchService {
  import opened Units
  import opened Numbers
  import opened Queues
  import opened Pipeline

  const NEXT_PING := "nextPing"
  const NEXT_DATA_EXTRACT := "nextDataExtract"
  const NEXT_PRODUCTION_TIME := "nextProductionTime"

  /** How `produce` ends: a file went out, none did, or an exception came out. */
  datatype Production = Sent(handover: Handover) | Idle | Thrown

  function HandoversOf(p: Production): seq<Handover> {
    if p.Sent? then [p.handover] else []
  }

  class CloudSynchService {
    const dataFilesQueue: CircularQueue<Text>
    var readFrequency: int
    var pingms: int
    var inProcess: bool
    var producerCronTable: map<string, int>
    var pingerStopped: bool
    var producerStopped: bool

    ghost predicate Valid()
      reads this, dataFilesQueue, dataFilesQueue.circularQueueElements
    {
      && dataFilesQueue.Valid() && dataFilesQueue.circularQueueElements.Length == QUEUE_SIZE
      && {NEXT_PING, NEXT_DATA_EXTRACT, NEXT_PRODUCTION_TIME} <= producerCronTable.Keys
    }

    ghost function View(): State
      requires Valid()
      reads this, dataFilesQueue, dataFilesQueue.circularQueueElements
    {
      State(dataFilesQueue.Contents(), readFrequency, pingms, inProcess, producerCronTable[NEXT_PING],
            producerCronTable[NEXT_PRODUCTION_TIME], pingerStopped, producerStopped)
    }

    constructor (start: int)
      ensures Valid() && View() == Initial(start).state
      ensures fresh(dataFilesQueue) && fresh(dataFilesQueue.circularQueueElements)
    {
      dataFilesQueue := new CircularQueue<Text>(QUEUE_SIZE);
      readFrequency := DEFAULT_READ_FREQUENCY;
      pingms := DEFAULT_PING_MS;
      inProcess := false;
      producerCronTable := map[NEXT_PING := start, NEXT_DATA_EXTRACT := start, NEXT_PRODUCTION_TIME := start];
      pingerStopped, producerStopped := false, false;
    }

    /** The end of `extractData`: the extracted file joins the queue, unless the queue is full. */
    method Enqueue(file: Text) returns (done: Attempt<()>)
      requires Valid()
      modifies this, dataFilesQueue, dataFilesQueue.circularQueueElements
      ensures Valid() && View() == AfterExtract(old(View()), file)
      ensures done.Success? <==> |old(View()).queue| < QUEUE_SIZE
    {
      hide CircularQueue.Valid, CircularQueue.Contents;
      done := dataFilesQueue.Enqueue(file);
    }

    /** One run of the pinger task; `measured` is none when the ping throws. */
    method PingTick(tick: int, measured: Option<int>, done: int)
      requires Valid()
      modifies this
      ensures Valid() && View() == AfterPing(old(View()), tick, measured, done)
    {
      if tick >= producerCronTable[NEXT_PING] && !pingerStopped {
        match measured {
          case Some(ms) => pingms := ms;
          case None => pingerStopped := true;
        }
        SetNextPing(done);
      }
    }

    method SetNextPing(now: int)
      requires Valid()
      modifies `producerCronTable
      ensures Valid() && View() == old(View()).(nextPing := Wrap(now + Soonest(readFrequency)))
    {
      if readFrequency > MAX_PING_INTERVAL {
        producerCronTable := producerCronTable[NEXT_PING := Wrap(now + MAX_PING_INTERVAL)];
      } else {
        producerCronTable := producerCronTable[NEXT_PING := Wrap(now + readFrequency)];
      }
    }

    /** `produce`. The readings of the clock are given: at the choice of a transport, and after sending. */
    method Produce(ts: Transports, tick: int, chosen: int, sent: int) returns (p: Production)
      requires Valid() && Ticks(View(), tick)
      modifies this, dataFilesQueue, dataFilesQueue.circularQueueElements
      ensures Valid() && View() == AfterProduce(ts, old(View()), chosen, sent)
      ensures p.Thrown? <==> Walk(ts, old(pingms), 1, old(readFrequency)).Broken?
      ensures HandoversOf(p) == HandedOver(ts, old(View()), tick, sent)
    {
      hide CircularQueue.Valid, CircularQueue.Contents, Millis, Wrap;
      if !dataFilesQueue.IsEmpty() {
        inProcess := true;
      }
      ghost var s := Started(old(View()));
      var priority := 1;
      while priority <= |ts|
        invariant 1 <= priority <= |ts| + 1
        invariant Valid() && View() == s.(readFrequency := readFrequency)
        invariant Walk(ts, pingms, 1, s.readFrequency) == Walk(ts, pingms, priority, readFrequency)
      {
        if priority !in ts {
          return Thrown;
        }
        var frequency := Millis(ts[priority].frequency);
        if frequency.None? {
          return Thrown;
        }
        readFrequency := frequency.value;
        if pingms <= ts[priority].speed {
          p := HandOver(priority, tick, chosen, sent);
          return;
        }
        priority := priority + 1;
      }
      return Idle;
    }

    /** The branch of `produce` that has found a transport. */
    method HandOver(priority: int, tick: int, chosen: int, sent: int) returns (p: Production)
      requires Valid()
      modifies this, dataFilesQueue, dataFilesQueue.circularQueueElements
      ensures Valid()
      ensures var s := old(View());
              var timed := s.(nextPing := Wrap(chosen + Soonest(s.readFrequency)), nextProduction := Wrap(sent + s.readFrequency));
              View() == if s.queue == [] then timed.(inProcess := false) else timed.(queue := s.queue[1..])
      ensures var s := old(View());
              p == if s.queue == [] then Idle else Sent(Handover(s.queue[0], priority, s.readFrequency, s.pingms, tick, sent))
    {
      hide CircularQueue.Valid, CircularQueue.Contents, Wrap;
      SetNextPing(chosen);
      var taken := dataFilesQueue.Dequeue();
      producerCronTable := producerCronTable[NEXT_PRODUCTION_TIME := Wrap(sent + readFrequency)];
      if taken.Success? {
        p := Sent(Handover(taken.value, priority, readFrequency, pingms, tick, sent));
      } else {
        inProcess := false;
        p := Idle;
      }
    }

    /** One run of the producer task. */
    method ProducerTick(ts: Transports, tick: int, chosen: int, sent: int) returns (p: Production)
      requires Valid()
      modifies this, dataFilesQueue, dataFilesQueue.circularQueueElements
      ensures Valid() && View() == AfterProducerTick(ts, old(View()), tick, chosen, sent)
      ensures HandoversOf(p) == HandedOver(ts, old(View()), tick, sent)
    {
      p := Idle;
      if tick >= producerCronTable[NEXT_PRODUCTION_TIME] && !producerStopped {
        p := Produce(ts, tick, chosen, sent);
        if p.Thrown? {
          producerStopped := true;
        }
      }
    }

    /** Any order of ticks and extracted files: the service goes through the states of the run, and hands over its files. */
    method Serve(ts: Transports, start: int, events: seq<Event>) returns (handed: seq<Handover>)
      requires Valid() && View() == Initial(start).state
      modifies this, dataFilesQueue, dataFilesQueue.circularQueueElements
      ensures Valid() && View() == Run(ts, start, events).state
      ensures handed == Run(ts, start, events).handed
    {
      hide AfterPing, AfterProducerTick, AfterExtract, HandedOver;
      handed := [];
      for n := 0 to |events|
        invariant Valid() && View() == Run(ts, start, events[..n]).state
        invariant handed == Run(ts, start, events[..n]).handed
      {
        assert events[..n + 1][..n] == events[..n];
        match events[n]
        case Extract(file) =>
          var _ := Enqueue(file);
        case PingTick(tick, measured, done) =>
          PingTick(tick, measured, done);
        case ProducerTick(tick, chosen, sent) =>
          var p := ProducerTick(ts, tick, chosen, sent);
          handed := handed + HandoversOf(p);
      }
      assert events[..|events|] == events;
    }
  }
}
