/**
 * The shared producer base class: topic provisioning through a process-wide
 * set of topic names, and the classification of the admin client's answers.
 *
 * The class-level set `existing_topics` is an explicit `TopicRegistry` object
 * that every `Producer` constructor receives; it also records every
 * create-topics request the process sent to the broker's admin interface.
 */
module ProducerBase {

  /** A topic creation request, as handed to the admin client. */
  datatype NewTopic = NewTopic(name: string, numPartitions: int, replicationFactor: int)

  /** The error code carried by a failed creation future. */
  datatype ErrorCode = TopicAlreadyExists | OtherError(code: int)

  /** What the future of one topic resolves to. */
  datatype AdminOutcome = Created | Failed(error: ErrorCode)

  /** The log line `create_topic` writes for one future; nothing is raised. */
  datatype CreateStatus =
    | TopicCreated(topic: string)
    | AlreadyExisted(topic: string)
    | CreateFailed(topic: string, code: int)

  /** Classifies the outcome of the creation future for `topic`. */
  function Classify(topic: string, outcome: AdminOutcome): (s: CreateStatus)
    ensures s.topic == topic
    ensures s.TopicCreated? <==> outcome.Created?
    ensures s.AlreadyExisted? <==> outcome == Failed(TopicAlreadyExists)
    ensures s.CreateFailed? <==> outcome.Failed? && outcome.error.OtherError?
    ensures s.CreateFailed? ==> s.code == outcome.error.code
  {
    match outcome
    case Created => TopicCreated(topic)
    case Failed(TopicAlreadyExists) => AlreadyExisted(topic)
    case Failed(OtherError(code)) => CreateFailed(topic, code)
  }

  /** The abstract state of the registry: the names seen and the requests issued. */
  datatype RegistryState = RegistryState(existing: set<string>, requests: seq<NewTopic>)

  /** No two create requests name the same topic. */
  predicate AtMostOnePerName(requests: seq<NewTopic>) {
    forall i, j :: 0 <= i < j < |requests| ==> requests[i].name != requests[j].name
  }

  /** Every requested name has been recorded, and no name was requested twice. */
  predicate RegistryInv(st: RegistryState) {
    && AtMostOnePerName(st.requests)
    && forall i :: 0 <= i < |st.requests| ==> st.requests[i].name in st.existing
  }

  /** The topic names of a sequence of requests, or of the constructions asking for them. */
  function Names(ts: seq<NewTopic>): set<string> {
    set i | 0 <= i < |ts| :: ts[i].name
  }

  /** The registry step of one `Producer` construction for `t`. */
  function Provision(st: RegistryState, t: NewTopic): RegistryState {
    if t.name in st.existing then RegistryState(st.existing, st.requests)
    else RegistryState(st.existing + {t.name}, st.requests + [t])
  }

  /** A sequence of `Producer` constructions, one after the other. */
  function ProvisionAll(st: RegistryState, ts: seq<NewTopic>): RegistryState
    decreases |ts|
  {
    if ts == [] then st else ProvisionAll(Provision(st, ts[0]), ts[1..])
  }

  /** One construction records its own name, keeps the others, and keeps the invariant. */
  lemma ProvisionStep(st: RegistryState, t: NewTopic)
    requires RegistryInv(st)
    ensures RegistryInv(Provision(st, t))
    ensures Provision(st, t).existing == st.existing + {t.name}
    ensures |Provision(st, t).requests| == |st.requests| + (if t.name in st.existing then 0 else 1)
    ensures Names(Provision(st, t).requests)
         == Names(st.requests) + (if t.name in st.existing then {} else {t.name})
  {
    var r := Provision(st, t);
    if t.name !in st.existing {
      assert r.requests[|st.requests|] == t;
      assert Names(r.requests) == Names(st.requests) + {t.name} by {
        forall n | n in Names(r.requests)
          ensures n in Names(st.requests) + {t.name}
        {
          var i :| 0 <= i < |r.requests| && r.requests[i].name == n;
          if i < |st.requests| { assert st.requests[i].name == n; }
        }
        forall n | n in Names(st.requests)
          ensures n in Names(r.requests)
        {
          var i :| 0 <= i < |st.requests| && st.requests[i].name == n;
          assert r.requests[i].name == n;
        }
      }
    }
  }

  /**
   * Any sequence of constructions issues exactly one create request per
   * distinct name that was not already known, and none for the others; the
   * set of known names only grows, by exactly the names asked for.
   */
  lemma {:induction false} ProvisionAllOncePerName(st: RegistryState, ts: seq<NewTopic>)
    requires RegistryInv(st)
    ensures RegistryInv(ProvisionAll(st, ts))
    ensures ProvisionAll(st, ts).existing == st.existing + Names(ts)
    ensures st.requests <= ProvisionAll(st, ts).requests
    ensures Names(ProvisionAll(st, ts).requests)
         == Names(st.requests) + (Names(ts) - st.existing)
    decreases |ts|
  {
    if ts != [] {
      var st' := Provision(st, ts[0]);
      ProvisionStep(st, ts[0]);
      ProvisionAllOncePerName(st', ts[1..]);
      assert Names(ts) == {ts[0].name} + Names(ts[1..]) by {
        forall n | n in Names(ts) ensures n in {ts[0].name} + Names(ts[1..]) {
          var i :| 0 <= i < |ts| && ts[i].name == n;
          if i > 0 { assert ts[1..][i - 1].name == n; }
        }
        forall n | n in Names(ts[1..]) ensures n in Names(ts) {
          var i :| 0 <= i < |ts[1..]| && ts[1..][i].name == n;
          assert ts[i + 1].name == n;
        }
      }
    }
  }

  /**
   * Two producers for the same name in a fresh process: one create request,
   * carrying the first producer's partition and replica counts.
   */
  lemma TwoProducersOneRequest(name: string, first: NewTopic, second: NewTopic)
    requires first.name == name && second.name == name
    ensures ProvisionAll(RegistryState({}, []), [first, second]) == RegistryState({name}, [first])
  {
    var st1 := Provision(RegistryState({}, []), first);
    assert st1 == RegistryState({name}, [first]);
    assert Provision(st1, second) == st1;
    assert [first, second][1..] == [second];
    assert ProvisionAll(st1, [second]) == ProvisionAll(st1, []);
  }

  /**
   * The process-wide set of provisioned topic names (`Producer.existing_topics`)
   * together with the create-topics requests sent to the admin interface.
   */
  class TopicRegistry {
    var existingTopics: set<string>
    var createRequests: seq<NewTopic>

    function State(): RegistryState
      reads this
    {
      RegistryState(existingTopics, createRequests)
    }

    ghost predicate Valid()
      reads this
    {
      RegistryInv(State())
    }

    constructor ()
      ensures Valid()
      ensures existingTopics == {} && createRequests == []
    {
      existingTopics := {};
      createRequests := [];
    }
  }

  /** A produce call handed to the serialising client. */
  datatype ProduceCall<V> = ProduceCall(topic: string, value: V)

  /**
   * A producer bound to one topic. The serialising client is the log `sent` of
   * produce calls; `creationLog` holds the classified creation outcomes.
   */
  class Producer<V> {
    const topicName: string
    const numPartitions: int
    const numReplicas: int
    var creationLog: seq<CreateStatus>
    var sent: seq<ProduceCall<V>>

    /**
     * Creates the topic through the admin interface unless its name is
     * already registered, then registers the name whatever the outcome.
     * `adminResponse` is what the admin client's futures resolve to.
     */
    constructor (registry: TopicRegistry, topicName: string, adminResponse: seq<(string, AdminOutcome)>,
                 numPartitions: int := 1, numReplicas: int := 1)
      requires registry.Valid()
      modifies registry
      ensures registry.Valid()
      ensures this.topicName == topicName
      ensures this.numPartitions == numPartitions && this.numReplicas == numReplicas
      ensures registry.State() == Provision(old(registry.State()), NewTopic(topicName, numPartitions, numReplicas))
      ensures topicName in registry.existingTopics
      ensures creationLog == if topicName in old(registry.existingTopics) then []
                             else seq(|adminResponse|, i requires 0 <= i < |adminResponse| =>
                                        Classify(adminResponse[i].0, adminResponse[i].1))
      ensures sent == []
    {
      this.topicName := topicName;
      this.numPartitions := numPartitions;
      this.numReplicas := numReplicas;
      creationLog := [];
      sent := [];
      new;
      ProvisionStep(registry.State(), NewTopic(topicName, numPartitions, numReplicas));
      if topicName !in registry.existingTopics {
        CreateTopic(registry, adminResponse);
        registry.existingTopics := registry.existingTopics + {topicName};
      }
    }

    /**
     * Sends one creation request for this producer's topic and classifies
     * every future of the response; no outcome is raised.
     */
    method CreateTopic(registry: TopicRegistry, adminResponse: seq<(string, AdminOutcome)>)
      modifies registry`createRequests, this`creationLog
      ensures registry.createRequests == old(registry.createRequests) + [NewTopic(topicName, numPartitions, numReplicas)]
      ensures creationLog == old(creationLog)
                           + seq(|adminResponse|, i requires 0 <= i < |adminResponse| =>
                                   Classify(adminResponse[i].0, adminResponse[i].1))
    {
      registry.createRequests := registry.createRequests + [NewTopic(topicName, numPartitions, numReplicas)];
      for k := 0 to |adminResponse|
        invariant registry.createRequests == old(registry.createRequests) + [NewTopic(topicName, numPartitions, numReplicas)]
        invariant creationLog == old(creationLog)
                               + seq(k, i requires 0 <= i < k => Classify(adminResponse[i].0, adminResponse[i].1))
      {
        var (topic, future) := adminResponse[k];
        creationLog := creationLog + [Classify(topic, future)];
      }
    }

    /** The serialising client's produce call: the record is queued for delivery. */
    method Produce(topic: string, value: V)
      modifies this`sent
      ensures sent == old(sent) + [ProduceCall(topic, value)]
    {
      sent := sent + [ProduceCall(topic, value)];
    }
  }
}
