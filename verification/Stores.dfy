/** The shared stores the services work on, and the clients that wrap them. */
module Stores {
  import opened Domain
  import opened Tables

  /** The PostgreSQL tables. */
  class Database {
    var jobs: seq<JobRow>
    var attempts: map<(JobId, nat), AttemptRow>
    var alerts: seq<AlertRow>
    var incidents: seq<IncidentRow>
    var notifications: seq<Notification>
    var audit: seq<AuditEntry>
    var actions: seq<OperatorAction>

    constructor ()
      ensures Contents() == EMPTY_TABLES
    {
      jobs, attempts, alerts, incidents := [], map[], [], [];
      notifications, audit, actions := [], [], [];
    }

    function Contents(): Tables
      reads this
    {
      Tables(jobs, attempts, alerts, incidents, notifications, audit, actions)
    }
  }

  /** The RabbitMQ client: the `jobs.processing` queue as a bag of messages, and the events published so far. */
  class RabbitMqService {
    var connected: bool
    var queue: multiset<Message>
    var events: seq<Event>

    constructor ()
      ensures !connected && queue == multiset{} && events == []
    {
      connected, queue, events := false, multiset{}, [];
    }

    /** Connecting needs a configured URL. */
    method OnModuleInit(url: Option<string>) returns (ok: bool)
      modifies this`connected
      ensures ok == (url.Some? && url.value != "")
      ensures connected == (old(connected) || ok)
    {
      ok := url.Some? && url.value != "";
      if ok { connected := true; }
    }

    method PublishToQueue(message: Message) returns (sent: bool)
      modifies this`queue
      ensures sent == connected
      ensures queue == if sent then old(queue) + multiset{message} else old(queue)
    {
      sent := connected;
      if sent { queue := queue + multiset{message}; }
    }

    method PublishEvent(event: Event) returns (sent: bool)
      modifies this`events
      ensures sent == connected
      ensures events == if sent then old(events) + [event] else old(events)
    {
      sent := connected;
      if sent { events := events + [event]; }
    }
  }

  /** The Redis lock: keys with the time at which they expire. */
  class RedisLockService {
    var keys: map<JobId, Time>

    constructor ()
      ensures keys == map[]
    {
      keys := map[];
    }

    predicate Free(key: JobId, now: Time)
      reads this
    {
      key !in keys || keys[key] <= now
    }

    /** `SET key '1' EX ttl NX`: fails exactly while the key is there and has not expired. */
    method AcquireLock(key: JobId, ttlSeconds: Time, now: Time) returns (acquired: bool)
      modifies this
      ensures !acquired <==> key in old(keys) && now < old(keys)[key]
      ensures acquired == old(Free(key, now))
      ensures keys == if acquired then old(keys)[key := now + ttlSeconds] else old(keys)
    {
      acquired := key !in keys || keys[key] <= now;
      if acquired { keys := keys[key := now + ttlSeconds]; }
    }

    /** `DEL key`, whoever set it. */
    method ReleaseLock(key: JobId)
      modifies this
      ensures keys == old(keys) - {key}
    {
      keys := keys - {key};
    }
  }

  class AuditService {
    const db: Database

    constructor (db: Database)
      ensures this.db == db
    {
      this.db := db;
    }

    /** Appends one entry; entries are never changed or removed. */
    method Log(actor: Option<OperatorId>, fact: Fact)
      modifies db`audit
      ensures db.audit == old(db.audit) + [AuditEntry(actor, fact)]
    {
      db.audit := db.audit + [AuditEntry(actor, fact)];
    }
  }

  class NotificationService {
    const db: Database

    constructor (db: Database)
      ensures this.db == db
    {
      this.db := db;
    }

    method Create(notification: Notification) returns (id: nat)
      modifies db`notifications
      ensures id == |old(db.notifications)|
      ensures db.notifications == old(db.notifications) + [notification]
    {
      id := |db.notifications|;
      db.notifications := db.notifications + [notification];
    }
  }
}
