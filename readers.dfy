/** What the six snapshot readers of internal/rdb/inspect.go return, as
    functions of what the store holds. */
module Readers {
  import opened Task
  import opened Collect
  import opened Store

  /** The dynamic type of `redis.Z.Member`, an `interface{}`. */
  datatype Member = StrMember(s: string) | OtherMember

  /** One entry of a ZRANGE ... WITHSCORES reply. */
  datatype Z = Z(member: Member, score: real)

  /** ZRANGE key 0 -1 WITHSCORES: every entry in set order; a sorted set only
      holds strings. */
  function ZRangeWithScores(z: seq<ZEntry>): (r: seq<Z>)
    ensures |r| == |z|
    ensures forall i | 0 <= i < |z| :: r[i].member.StrMember? && r[i].member.s == z[i].member
    ensures forall i | 0 <= i < |z| :: r[i].score == z[i].score
  {
    seq(|z|, i requires 0 <= i < |z| => Z(StrMember(z[i].member), z[i].score))
  }

  /** The summary ListEnqueued builds from a member: ID, type and payload. */
  function EnqueuedOf(dec: Decoder, s: string): (r: Option<EnqueuedTask>)
    ensures r.Some? <==> dec(s).Some?
    ensures r.Some? ==>
              var m := dec(s).value;
              r.value.id == m.id && r.value.typ == m.typ && r.value.payload == m.payload
  {
    match dec(s)
    case None => None
    case Some(m) => Some(EnqueuedTask(m.id, m.typ, m.payload))
  }

  /** The summary ListInProgress builds from a member: ID, type and payload. */
  function InProgressOf(dec: Decoder, s: string): (r: Option<InProgressTask>)
    ensures r.Some? <==> dec(s).Some?
    ensures r.Some? ==>
              var m := dec(s).value;
              r.value.id == m.id && r.value.typ == m.typ && r.value.payload == m.payload
  {
    match dec(s)
    case None => None
    case Some(m) => Some(InProgressTask(m.id, m.typ, m.payload))
  }

  /** The decoded message of a reply entry, when its member is a string that
      decodes. */
  function MessageOf(dec: Decoder, z: Z): Option<TaskMessage>
  {
    if z.member.StrMember? then dec(z.member.s) else None
  }

  /** The summary ListScheduled builds from a reply entry: nothing when the
      member is not a string or does not decode, else ID, type, payload and
      the score in whole seconds. */
  function ScheduledOf(dec: Decoder, z: Z): (r: Option<ScheduledTask>)
    ensures r.Some? <==> z.member.StrMember? && dec(z.member.s).Some?
    ensures r.Some? ==>
              var m := dec(z.member.s).value;
              && r.value.id == m.id && r.value.typ == m.typ && r.value.payload == m.payload
              && r.value.processAt == UnixSeconds(z.score)
  {
    match MessageOf(dec, z)
    case None => None
    case Some(m) => Some(ScheduledTask(m.id, m.typ, m.payload, UnixSeconds(z.score)))
  }

  /** The summary ListRetry builds from a reply entry; it also carries the
      error message and both retry counts. */
  function RetryOf(dec: Decoder, z: Z): (r: Option<RetryTask>)
    ensures r.Some? <==> z.member.StrMember? && dec(z.member.s).Some?
    ensures r.Some? ==>
              var m := dec(z.member.s).value;
              && r.value.id == m.id && r.value.typ == m.typ && r.value.payload == m.payload
              && r.value.errorMsg == m.errorMsg && r.value.retry == m.retry && r.value.retried == m.retried
              && r.value.processAt == UnixSeconds(z.score)
  {
    match MessageOf(dec, z)
    case None => None
    case Some(m) =>
      Some(RetryTask(m.id, m.typ, m.payload, UnixSeconds(z.score), m.errorMsg, m.retried, m.retry))
  }

  /** The summary ListDead builds from a reply entry; it carries the error
      message and the time of the last failure. */
  function DeadOf(dec: Decoder, z: Z): (r: Option<DeadTask>)
    ensures r.Some? <==> z.member.StrMember? && dec(z.member.s).Some?
    ensures r.Some? ==>
              var m := dec(z.member.s).value;
              && r.value.id == m.id && r.value.typ == m.typ && r.value.payload == m.payload
              && r.value.errorMsg == m.errorMsg
              && r.value.lastFailedAt == UnixSeconds(z.score)
  {
    match MessageOf(dec, z)
    case None => None
    case Some(m) => Some(DeadTask(m.id, m.typ, m.payload, UnixSeconds(z.score), m.errorMsg))
  }

  function EnqueuedConv(dec: Decoder): string -> Option<EnqueuedTask>
  {
    s => EnqueuedOf(dec, s)
  }

  function InProgressConv(dec: Decoder): string -> Option<InProgressTask>
  {
    s => InProgressOf(dec, s)
  }

  function ScheduledConv(dec: Decoder): Z -> Option<ScheduledTask>
  {
    z => ScheduledOf(dec, z)
  }

  function RetryConv(dec: Decoder): Z -> Option<RetryTask>
  {
    z => RetryOf(dec, z)
  }

  function DeadConv(dec: Decoder): Z -> Option<DeadTask>
  {
    z => DeadOf(dec, z)
  }

  /** ListEnqueued: every member of the ready list decodes and is listed in
      stored order with its ID, type and payload, or the call fails with a
      decode error and lists nothing. */
  function EnqueuedList(dec: Decoder, data: seq<string>): (r: Result<seq<EnqueuedTask>, Error>)
    ensures r.Ok? <==> forall i | 0 <= i < |data| :: dec(data[i]).Some?
    ensures r.Err? ==> r.error == DecodeError
    ensures r.Ok? ==>
              && |r.value| == |data|
              && forall i | 0 <= i < |data| ::
                   var m := dec(data[i]).value;
                   r.value[i] == EnqueuedTask(m.id, m.typ, m.payload)
  {
    match AllOrNothing(data, EnqueuedConv(dec))
    case None => Err(DecodeError)
    case Some(tasks) => Ok(tasks)
  }

  /** ListInProgress: the active-list members that decode, in stored order;
      every task listed is the summary of some member. */
  function InProgressList(dec: Decoder, data: seq<string>): (r: seq<InProgressTask>)
    ensures |r| <= |data|
    ensures forall t | t in r :: exists s | s in data :: InProgressOf(dec, s) == Some(t)
  {
    FilterMapSound(data, InProgressConv(dec));
    FilterMap(data, InProgressConv(dec))
  }

  /** ListScheduled, ListRetry, ListDead: the reply entries whose member is a
      string that decodes, in reply order; every task listed is the summary
      of some entry. */
  function ScheduledList(dec: Decoder, data: seq<Z>): (r: seq<ScheduledTask>)
    ensures |r| <= |data|
    ensures forall t | t in r :: exists z | z in data :: ScheduledOf(dec, z) == Some(t)
  {
    FilterMapSound(data, ScheduledConv(dec));
    FilterMap(data, ScheduledConv(dec))
  }

  function RetryList(dec: Decoder, data: seq<Z>): (r: seq<RetryTask>)
    ensures |r| <= |data|
    ensures forall t | t in r :: exists z | z in data :: RetryOf(dec, z) == Some(t)
  {
    FilterMapSound(data, RetryConv(dec));
    FilterMap(data, RetryConv(dec))
  }

  function DeadList(dec: Decoder, data: seq<Z>): (r: seq<DeadTask>)
    ensures |r| <= |data|
    ensures forall t | t in r :: exists z | z in data :: DeadOf(dec, z) == Some(t)
  {
    FilterMapSound(data, DeadConv(dec));
    FilterMap(data, DeadConv(dec))
  }

  /** The two decode policies side by side: one corrupt member aborts
      ListEnqueued, while ListInProgress drops it and lists everything around
      it in order. */
  lemma CorruptEntryPolicy(dec: Decoder, before: seq<string>, bad: string, after: seq<string>)
    requires dec(bad).None?
    ensures EnqueuedList(dec, before + [bad] + after) == Err(DecodeError)
    ensures InProgressList(dec, before + [bad] + after)
            == InProgressList(dec, before) + InProgressList(dec, after)
  {
    var data := before + [bad] + after;
    assert data[|before|] == bad;
    FilterMapSkips(before, bad, after, InProgressConv(dec));
  }

  /** ListInProgress when every member decodes: one task per member, in order,
      with the member's ID, type and payload. */
  lemma InProgressListsAll(dec: Decoder, data: seq<string>)
    requires forall i | 0 <= i < |data| :: dec(data[i]).Some?
    ensures var r := InProgressList(dec, data);
            && |r| == |data|
            && forall i | 0 <= i < |data| ::
                 var m := dec(data[i]).value;
                 r[i] == InProgressTask(m.id, m.typ, m.payload)
  {
    FilterMapKeepsAll(data, InProgressConv(dec));
  }

  /** A reply entry the scored readers skip: its member is not a string or
      does not decode. */
  predicate Unreadable(dec: Decoder, z: Z)
  {
    MessageOf(dec, z).None?
  }

  /** The scored readers drop an unreadable entry and keep the rest in order;
      they never fail on it. */
  lemma ScoredReadersSkip(dec: Decoder, before: seq<Z>, bad: Z, after: seq<Z>)
    requires Unreadable(dec, bad)
    ensures ScheduledList(dec, before + [bad] + after)
            == ScheduledList(dec, before) + ScheduledList(dec, after)
    ensures RetryList(dec, before + [bad] + after)
            == RetryList(dec, before) + RetryList(dec, after)
    ensures DeadList(dec, before + [bad] + after)
            == DeadList(dec, before) + DeadList(dec, after)
  {
    FilterMapSkips(before, bad, after, ScheduledConv(dec));
    FilterMapSkips(before, bad, after, RetryConv(dec));
    FilterMapSkips(before, bad, after, DeadConv(dec));
  }

  /** ListRetry when every entry is readable: one task per entry, in order,
      carrying the message's ID, type, payload, error message and retry
      counts, with ProcessAt the score truncated to whole seconds. */
  lemma RetryListsAll(dec: Decoder, data: seq<Z>)
    requires forall i | 0 <= i < |data| :: MessageOf(dec, data[i]).Some?
    ensures var r := RetryList(dec, data);
            && |r| == |data|
            && forall i | 0 <= i < |data| ::
                 var m := MessageOf(dec, data[i]).value;
                 r[i] == RetryTask(m.id, m.typ, m.payload, UnixSeconds(data[i].score),
                                   m.errorMsg, m.retried, m.retry)
  {
    FilterMapKeepsAll(data, RetryConv(dec));
  }

  /** ListScheduled when every entry is readable: ProcessAt is the score in
      whole seconds. */
  lemma ScheduledListsAll(dec: Decoder, data: seq<Z>)
    requires forall i | 0 <= i < |data| :: MessageOf(dec, data[i]).Some?
    ensures var r := ScheduledList(dec, data);
            && |r| == |data|
            && forall i | 0 <= i < |data| ::
                 var m := MessageOf(dec, data[i]).value;
                 r[i] == ScheduledTask(m.id, m.typ, m.payload, UnixSeconds(data[i].score))
  {
    FilterMapKeepsAll(data, ScheduledConv(dec));
  }

  /** ListDead when every entry is readable: LastFailedAt is the score in
      whole seconds and the error message is copied. */
  lemma DeadListsAll(dec: Decoder, data: seq<Z>)
    requires forall i | 0 <= i < |data| :: MessageOf(dec, data[i]).Some?
    ensures var r := DeadList(dec, data);
            && |r| == |data|
            && forall i | 0 <= i < |data| ::
                 var m := MessageOf(dec, data[i]).value;
                 r[i] == DeadTask(m.id, m.typ, m.payload, UnixSeconds(data[i].score), m.errorMsg)
  {
    FilterMapKeepsAll(data, DeadConv(dec));
  }

  /** A reply with nothing readable, an empty queue among them, lists nothing
      and is not an error. */
  lemma ScoredReadersEmpty(dec: Decoder, data: seq<Z>)
    requires forall i | 0 <= i < |data| :: MessageOf(dec, data[i]).None?
    ensures ScheduledList(dec, data) == [] && RetryList(dec, data) == [] && DeadList(dec, data) == []
  {
    FilterMapDropsAll(data, ScheduledConv(dec));
    FilterMapDropsAll(data, RetryConv(dec));
    FilterMapDropsAll(data, DeadConv(dec));
  }

  /** After a successful move the moved task is the newest entry of the ready
      list: if ListEnqueued succeeds, its first task has the requested ID. */
  lemma MovedTaskListedFirst(dec: Decoder, q: Queues, k: ZKey, id: string, score: real)
    requires RunScript(dec, q, k, id, score).result == Ok(1)
    ensures var r := EnqueuedList(dec, RunScript(dec, q, k, id, score).queues.defaultQ);
            r.Ok? ==> |r.value| > 0 && r.value[0].id == id
  {
  }

  /** A task held only by the dead queue is rescued once: it leaves the dead
      queue and is the newest ready task; rescuing it again reports that it
      is not found. */
  lemma RescueTwice(dec: Decoder, t1: string, msg: TaskMessage)
    requires dec(t1) == Some(msg) && msg.id == "t1"
    ensures var q := Queues([], [], [], [], [ZEntry(t1, 1700000100.0)]);
            var s1 := RunScript(dec, q, DeadQ, "t1", 1700000100.0);
            var s2 := RunScript(dec, s1.queues, DeadQ, "t1", 1700000100.0);
            && MoveError(s1.result) == None
            && s1.queues.deadQ == []
            && EnqueuedList(dec, s1.queues.defaultQ) == Ok([EnqueuedTask("t1", msg.typ, msg.payload)])
            && MoveError(s2.result) == Some(TaskNotFound)
            && s2.queues == s1.queues
  {
    var q := Queues([], [], [], [], [ZEntry(t1, 1700000100.0)]);
    assert Bucket(q.deadQ, 1700000100.0) == [t1];
    assert FindMember(dec, [t1], "t1") == Found(t1);
    assert RemoveMember(q.deadQ, t1) == [];
    var s1 := RunScript(dec, q, DeadQ, "t1", 1700000100.0);
    assert s1.queues == Queues([t1], [], [], [], []);
    assert s1.result == Ok(1);
    var listed := EnqueuedList(dec, [t1]);
    assert listed.Ok? && |listed.value| == 1;
    assert listed.value == [EnqueuedTask("t1", msg.typ, msg.payload)];
    assert Bucket([], 1700000100.0) == [];
  }
}
