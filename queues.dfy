/** The four BullMQ queues, their default job options and their workers
    (backend/src/config/queues.ts). */
module Queues {
  import opened Wrappers
  import opened Values

  datatype QueueName = DataSync | AgreementUpdate | DocuSignEnvelope | Notification

  /** `QUEUE_NAMES`. */
  function NameText(q: QueueName): string
  {
    match q
    case DataSync => "data-sync"
    case AgreementUpdate => "agreement-update"
    case DocuSignEnvelope => "docusign-envelope"
    case Notification => "notification"
  }

  /** The entries of `queueConfigs`, in declaration order. */
  const ConfiguredQueues: seq<QueueName> := [DataSync, AgreementUpdate, DocuSignEnvelope, Notification]

  lemma QueueNamesDistinct()
    ensures |ConfiguredQueues| == 4
    ensures forall i, j :: 0 <= i < j < |ConfiguredQueues| ==>
      NameText(ConfiguredQueues[i]) != NameText(ConfiguredQueues[j])
    ensures forall q :: q in ConfiguredQueues
  {
    forall q ensures q in ConfiguredQueues {
      match q
      case DataSync => assert ConfiguredQueues[0] == q;
      case AgreementUpdate => assert ConfiguredQueues[1] == q;
      case DocuSignEnvelope => assert ConfiguredQueues[2] == q;
      case Notification => assert ConfiguredQueues[3] == q;
    }
  }

  datatype Backoff = Backoff(kind: string, delay: nat)

  /** `defaultJobOptions`: retry budget, back-off and optional repeat
      interval, all in milliseconds. */
  datatype JobOptions = JobOptions(attempts: nat, backoff: Backoff, repeatEvery: Option<nat>)

  function DefaultJobOptions(q: QueueName): (o: JobOptions)
    ensures o.backoff.kind == "exponential"
    ensures o.repeatEvery.Some? <==> q == DataSync
    ensures o.attempts >= 3 && o.backoff.delay >= 1000
  {
    match q
    case DataSync => JobOptions(3, Backoff("exponential", 1000), Some(5 * 60 * 1000))
    case AgreementUpdate => JobOptions(3, Backoff("exponential", 1000), None)
    case DocuSignEnvelope => JobOptions(5, Backoff("exponential", 2000), None)
    case Notification => JobOptions(3, Backoff("exponential", 1000), None)
  }

  /** The policy table: attempts and base delays per queue, and the single
      five-minute repeat. */
  lemma PolicyTable()
    ensures DefaultJobOptions(DataSync).attempts == 3 && DefaultJobOptions(DataSync).backoff.delay == 1000
    ensures DefaultJobOptions(DataSync).repeatEvery == Some(300000)
    ensures DefaultJobOptions(AgreementUpdate).attempts == 3 && DefaultJobOptions(AgreementUpdate).backoff.delay == 1000
    ensures DefaultJobOptions(DocuSignEnvelope).attempts == 5 && DefaultJobOptions(DocuSignEnvelope).backoff.delay == 2000
    ensures DefaultJobOptions(Notification).attempts == 3 && DefaultJobOptions(Notification).backoff.delay == 1000
  {
  }

  /** A `new Queue(name, { defaultJobOptions })` handle. */
  datatype QueueHandle = QueueHandle(name: string, options: JobOptions)

  /** `setupQueues`: one queue per configuration entry, in order. */
  method SetupQueues() returns (queues: seq<QueueHandle>)
    ensures |queues| == |ConfiguredQueues|
    ensures forall i :: 0 <= i < |queues| ==>
      queues[i] == QueueHandle(NameText(ConfiguredQueues[i]), DefaultJobOptions(ConfiguredQueues[i]))
  {
    queues := [];
    var i := 0;
    while i < |ConfiguredQueues|
      invariant 0 <= i <= |ConfiguredQueues|
      invariant |queues| == i
      invariant forall k :: 0 <= k < i ==>
        queues[k] == QueueHandle(NameText(ConfiguredQueues[k]), DefaultJobOptions(ConfiguredQueues[k]))
    {
      var q := ConfiguredQueues[i];
      queues := queues + [QueueHandle(NameText(q), DefaultJobOptions(q))];
      i := i + 1;
    }
  }

  datatype Processor = ProcessDataSyncJob | ProcessDocuSignJob | ProcessNotificationJob

  datatype WorkerSpec = WorkerSpec(queue: QueueName, processor: Processor, concurrency: nat)

  /** `setupWorkers`: one worker per queue. */
  function Workers(): (ws: seq<WorkerSpec>)
    ensures |ws| == |ConfiguredQueues|
    ensures forall i :: 0 <= i < |ws| ==> ws[i].queue == ConfiguredQueues[i] && ws[i].concurrency > 0
  {
    [ WorkerSpec(DataSync, ProcessDataSyncJob, 5),
      WorkerSpec(AgreementUpdate, ProcessDataSyncJob, 3),
      WorkerSpec(DocuSignEnvelope, ProcessDocuSignJob, 2),
      WorkerSpec(Notification, ProcessNotificationJob, 5) ]
  }

  /** Concurrency 5, 3, 2, 5; the agreement-update queue shares the
      data-sync processor. */
  lemma WorkerTable()
    ensures Workers()[0].concurrency == 5 && Workers()[1].concurrency == 3
    ensures Workers()[2].concurrency == 2 && Workers()[3].concurrency == 5
    ensures Workers()[1].processor == Workers()[0].processor
    ensures Workers()[3].processor == ProcessNotificationJob
  {
  }

  /** A job: the name passed to `add` and its data object. */
  datatype Job = Job(name: string, data: Record)

  /** The jobs waiting on one queue, in enqueue order. */
  class JobQueue {
    const name: string
    var jobs: seq<Job>

    constructor (name: string)
      ensures this.name == name && jobs == []
    {
      this.name := name;
      jobs := [];
    }

    /** `queue.add(jobName, data)`. */
    method Add(jobName: string, data: Record)
      modifies this
      ensures jobs == old(jobs) + [Job(jobName, data)]
    {
      jobs := jobs + [Job(jobName, data)];
    }
  }
}
