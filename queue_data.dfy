/**
 * The static queue-message collection of lib/queue-data.ts and its
 * statistics: the messages are partitioned by their four-valued status and
 * each part is counted, next to the total.
 */
module QueueData {
  import opened Wrappers

  datatype QueueStatus = Available | InFlight | Delayed | Dlq

  datatype QueueMessage = QueueMessage(
    messageId: string,
    orderId: string,
    customerName: string,
    status: QueueStatus,
    timestamp: string,
    retryCount: nat,
    visibilityTimeout: Option<string>,
    approximateReceiveCount: nat)

  datatype QueueStats = QueueStats(available: nat, inFlight: nat, delayed: nat, dlq: nat, total: nat)

  /** The eight messages the module starts with. */
  function SeedMessages(): seq<QueueMessage> {
    [ QueueMessage("MSG-8472", "ORD-2842", "Robert Martinez", InFlight, "2025-10-07T13:52:08Z", 0, Some("2025-10-07T13:52:38Z"), 1),
      QueueMessage("MSG-8471", "ORD-2841", "Amanda White", Available, "2025-10-07T13:45:00Z", 0, None, 0),
      QueueMessage("MSG-8470", "ORD-2848", "Daniel Brown", Available, "2025-10-07T13:43:15Z", 0, None, 0),
      QueueMessage("MSG-8469", "ORD-2849", "Lisa Anderson", Available, "2025-10-07T13:41:22Z", 0, None, 0),
      QueueMessage("MSG-8468", "ORD-2850", "Kevin Wilson", Delayed, "2025-10-07T13:38:45Z", 1, None, 1),
      QueueMessage("MSG-8467", "ORD-2845", "Emily Rodriguez", Dlq, "2025-10-07T13:11:05Z", 3, None, 4),
      QueueMessage("MSG-8466", "ORD-2851", "Thomas Garcia", Dlq, "2025-10-07T12:58:12Z", 3, None, 4),
      QueueMessage("MSG-8465", "ORD-2852", "Patricia Moore", Dlq, "2025-10-07T12:45:33Z", 3, None, 4)
    ]
  }

  /** getQueueMessages: the collection as it stands. */
  function GetQueueMessages(): (r: seq<QueueMessage>)
    ensures r == SeedMessages()
    ensures |r| == 8
  {
    SeedMessages()
  }

  /**
   * `messages.filter((m) => m.status === status)`: the messages of one
   * status, each as often as it occurs, and no others.
   */
  function FilterStatus(messages: seq<QueueMessage>, status: QueueStatus): (r: seq<QueueMessage>)
    ensures |r| <= |messages|
    ensures forall i :: 0 <= i < |r| ==> r[i].status == status
    ensures forall m :: m in messages && m.status == status ==> m in r
    ensures forall m :: m in r ==> m in messages
  {
    if messages == [] then []
    else (if messages[0].status == status then [messages[0]] else [])
         + FilterStatus(messages[1..], status)
  }

  /** The filter keeps each message of the status exactly as often as it occurs, and no other message. */
  lemma {:induction false} FilterStatusMultiplicity(messages: seq<QueueMessage>, status: QueueStatus, m: QueueMessage)
    ensures multiset(FilterStatus(messages, status))[m]
         == if m.status == status then multiset(messages)[m] else 0
  {
    if messages != [] {
      var head, tail := messages[0], messages[1..];
      var kept := if head.status == status then [head] else [];
      FilterStatusMultiplicity(tail, status, m);
      assert messages == [head] + tail;
      assert multiset(messages)[m] == multiset([head])[m] + multiset(tail)[m];
      assert FilterStatus(messages, status) == kept + FilterStatus(tail, status);
      assert multiset(kept + FilterStatus(tail, status))[m]
          == multiset(kept)[m] + multiset(FilterStatus(tail, status))[m];
    }
  }

  /** The statuses of the messages, position by position. */
  function Statuses(messages: seq<QueueMessage>): seq<QueueStatus> {
    seq(|messages|, i requires 0 <= i < |messages| => messages[i].status)
  }

  /** How many messages have `status`: its multiplicity among the statuses (a reference count). */
  function CountStatus(messages: seq<QueueMessage>, status: QueueStatus): nat {
    multiset(Statuses(messages))[status]
  }

  /** The counts of getQueueStats over a given collection. */
  function StatsOf(messages: seq<QueueMessage>): (r: QueueStats)
    ensures r.total == |messages|
    ensures r.available + r.inFlight + r.delayed + r.dlq == r.total
    ensures r.available <= r.total && r.inFlight <= r.total && r.delayed <= r.total && r.dlq <= r.total
  {
    PartitionCountsSum(messages);
    QueueStats(
      |FilterStatus(messages, Available)|,
      |FilterStatus(messages, InFlight)|,
      |FilterStatus(messages, Delayed)|,
      |FilterStatus(messages, Dlq)|,
      |messages|)
  }

  /** getQueueStats: the counts over the current collection. */
  function GetQueueStats(): (r: QueueStats)
    ensures r == QueueStats(3, 1, 1, 3, 8)
  {
    SeedStats();
    StatsOf(GetQueueMessages())
  }

  /** Every message has exactly one of the four statuses, so the four parts add up to the whole. */
  lemma {:induction false} PartitionCountsSum(messages: seq<QueueMessage>)
    ensures |FilterStatus(messages, Available)| + |FilterStatus(messages, InFlight)|
          + |FilterStatus(messages, Delayed)| + |FilterStatus(messages, Dlq)| == |messages|
  {
    if messages != [] {
      PartitionCountsSum(messages[1..]);
    }
  }

  /** Each count of the statistics is the number of messages that have that status. */
  lemma {:induction false} FilterLengthIsCount(messages: seq<QueueMessage>, status: QueueStatus)
    ensures |FilterStatus(messages, status)| == CountStatus(messages, status)
  {
    if messages != [] {
      FilterLengthIsCount(messages[1..], status);
      assert Statuses(messages) == [messages[0].status] + Statuses(messages[1..]);
    }
  }

  /** The stats of a collection count, per status, exactly the messages of that status. */
  lemma StatsCountStatuses(messages: seq<QueueMessage>)
    ensures StatsOf(messages).available == CountStatus(messages, Available)
    ensures StatsOf(messages).inFlight == CountStatus(messages, InFlight)
    ensures StatsOf(messages).delayed == CountStatus(messages, Delayed)
    ensures StatsOf(messages).dlq == CountStatus(messages, Dlq)
  {
    FilterLengthIsCount(messages, Available);
    FilterLengthIsCount(messages, InFlight);
    FilterLengthIsCount(messages, Delayed);
    FilterLengthIsCount(messages, Dlq);
  }

  /** On the seed: three available, one in flight, one delayed, three dead-lettered, eight in all. */
  lemma SeedStats()
    ensures StatsOf(SeedMessages()) == QueueStats(3, 1, 1, 3, 8)
  {
    StatsCountStatuses(SeedMessages());
    SeedStatuses();
    SeedStatusCounts();
  }

  lemma SeedStatuses()
    ensures Statuses(SeedMessages()) == [InFlight, Available, Available, Available, Delayed, Dlq, Dlq, Dlq]
  {
  }

  lemma SeedStatusCounts()
    ensures var b := multiset([InFlight, Available, Available, Available, Delayed, Dlq, Dlq, Dlq]);
      b[Available] == 3 && b[InFlight] == 1 && b[Delayed] == 1 && b[Dlq] == 3
  {
  }

  /** Every seed message in the dead-letter queue was retried 3 times and received 4 times. */
  lemma SeedDeadLetters()
    ensures forall i :: 0 <= i < |SeedMessages()| && SeedMessages()[i].status == Dlq ==>
              SeedMessages()[i].retryCount == 3 && SeedMessages()[i].approximateReceiveCount == 4
  {
  }
}
