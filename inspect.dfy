/** The inspector of internal/rdb/inspect.go over an in-memory store: the
    five keys are fields, every round trip is one method, and `fault` stands
    for a failure of that round trip (the store is then left as it was). */
module Inspect {
  import opened Task
  import opened Collect
  import opened Store
  import opened Readers

  class RDB {
    /** How members decode, both in Go and in the store's scripts. */
    const dec: Decoder
    var defaultQ: seq<string>
    var inProgressQ: seq<string>
    var scheduledQ: seq<ZEntry>
    var retryQ: seq<ZEntry>
    var deadQ: seq<ZEntry>

    ghost function State(): Queues
      reads this
    {
      Queues(defaultQ, inProgressQ, scheduledQ, retryQ, deadQ)
    }

    ghost predicate Valid()
      reads this
    {
      ValidQueues(State())
    }

    constructor (dec: Decoder)
      ensures Valid() && this.dec == dec
      ensures State() == Queues([], [], [], [], [])
    {
      this.dec := dec;
      defaultQ, inProgressQ := [], [];
      scheduledQ, retryQ, deadQ := [], [], [];
    }

    function ZSetAt(k: ZKey): (z: seq<ZEntry>)
      reads this
    {
      match k
      case ScheduledQ => scheduledQ
      case RetryQ => retryQ
      case DeadQ => deadQ
    }

    /** The five counts in one pipelined round trip; none at all if it fails. */
    method CurrentStats(fault: Option<string>, now: int) returns (r: Result<Stats, Error>)
      ensures fault.Some? ==> r == Err(BackendError(fault.value))
      ensures fault.None? ==> r.Ok? && r.value == Cardinalities(State(), now)
    {
      if fault.Some? {
        return Err(BackendError(fault.value));
      }
      var qlen, plen := |defaultQ|, |inProgressQ|;
      var slen, rlen, dlen := |scheduledQ|, |retryQ|, |deadQ|;
      r := Ok(Stats(qlen, plen, slen, rlen, dlen, now));
    }

    method ListEnqueued(fault: Option<string>) returns (r: Result<seq<EnqueuedTask>, Error>)
      ensures fault.Some? ==> r == Err(BackendError(fault.value))
      ensures fault.None? ==> r == EnqueuedList(dec, defaultQ)
    {
      if fault.Some? {
        return Err(BackendError(fault.value));
      }
      var data := defaultQ;
      var tasks: seq<EnqueuedTask> := [];
      for i := 0 to |data|
        invariant AllOrNothing(data[..i], EnqueuedConv(dec)) == Some(tasks)
      {
        assert data[..i + 1][..i] == data[..i];
        var msg := dec(data[i]);
        if msg.None? {
          return Err(DecodeError);
        }
        tasks := tasks + [EnqueuedTask(msg.value.id, msg.value.typ, msg.value.payload)];
      }
      assert data[..|data|] == data;
      return Ok(tasks);
    }

    method ListInProgress(fault: Option<string>) returns (r: Result<seq<InProgressTask>, Error>)
      ensures fault.Some? ==> r == Err(BackendError(fault.value))
      ensures fault.None? ==> r == Ok(InProgressList(dec, inProgressQ))
    {
      if fault.Some? {
        return Err(BackendError(fault.value));
      }
      var data := inProgressQ;
      var tasks: seq<InProgressTask> := [];
      for i := 0 to |data|
        invariant tasks == FilterMap(data[..i], InProgressConv(dec))
      {
        assert data[..i + 1][..i] == data[..i];
        var msg := dec(data[i]);
        if msg.None? {
          continue;
        }
        tasks := tasks + [InProgressTask(msg.value.id, msg.value.typ, msg.value.payload)];
      }
      assert data[..|data|] == data;
      return Ok(tasks);
    }

    method ListScheduled(fault: Option<string>) returns (r: Result<seq<ScheduledTask>, Error>)
      ensures fault.Some? ==> r == Err(BackendError(fault.value))
      ensures fault.None? ==> r == Ok(ScheduledList(dec, ZRangeWithScores(scheduledQ)))
    {
      if fault.Some? {
        return Err(BackendError(fault.value));
      }
      var data := ZRangeWithScores(scheduledQ);
      var tasks: seq<ScheduledTask> := [];
      for i := 0 to |data|
        invariant tasks == FilterMap(data[..i], ScheduledConv(dec))
      {
        assert data[..i + 1][..i] == data[..i];
        var z := data[i];
        if !z.member.StrMember? {
          continue;
        }
        var msg := dec(z.member.s);
        if msg.None? {
          continue;
        }
        var processAt := UnixSeconds(z.score);
        tasks := tasks + [ScheduledTask(msg.value.id, msg.value.typ, msg.value.payload, processAt)];
      }
      assert data[..|data|] == data;
      return Ok(tasks);
    }

    method ListRetry(fault: Option<string>) returns (r: Result<seq<RetryTask>, Error>)
      ensures fault.Some? ==> r == Err(BackendError(fault.value))
      ensures fault.None? ==> r == Ok(RetryList(dec, ZRangeWithScores(retryQ)))
    {
      if fault.Some? {
        return Err(BackendError(fault.value));
      }
      var data := ZRangeWithScores(retryQ);
      var tasks: seq<RetryTask> := [];
      for i := 0 to |data|
        invariant tasks == FilterMap(data[..i], RetryConv(dec))
      {
        assert data[..i + 1][..i] == data[..i];
        var z := data[i];
        if !z.member.StrMember? {
          continue;
        }
        var msg := dec(z.member.s);
        if msg.None? {
          continue;
        }
        var m, processAt := msg.value, UnixSeconds(z.score);
        tasks := tasks + [RetryTask(m.id, m.typ, m.payload, processAt, m.errorMsg, m.retried, m.retry)];
      }
      assert data[..|data|] == data;
      return Ok(tasks);
    }

    method ListDead(fault: Option<string>) returns (r: Result<seq<DeadTask>, Error>)
      ensures fault.Some? ==> r == Err(BackendError(fault.value))
      ensures fault.None? ==> r == Ok(DeadList(dec, ZRangeWithScores(deadQ)))
    {
      if fault.Some? {
        return Err(BackendError(fault.value));
      }
      var data := ZRangeWithScores(deadQ);
      var tasks: seq<DeadTask> := [];
      for i := 0 to |data|
        invariant tasks == FilterMap(data[..i], DeadConv(dec))
      {
        assert data[..i + 1][..i] == data[..i];
        var z := data[i];
        if !z.member.StrMember? {
          continue;
        }
        var msg := dec(z.member.s);
        if msg.None? {
          continue;
        }
        var m, lastFailedAt := msg.value, UnixSeconds(z.score);
        tasks := tasks + [DeadTask(m.id, m.typ, m.payload, lastFailedAt, m.errorMsg)];
      }
      assert data[..|data|] == data;
      return Ok(tasks);
    }

    /** The move script, run atomically: scan the members of `zset` scored
        exactly `score`, and move the first whose ID is `id` to the head of
        the ready list. */
    method RemoveAndEnqueue(zset: ZKey, id: string, score: real, fault: Option<string>)
      returns (r: Result<int, Error>)
      requires Valid()
      modifies this
      ensures Valid()
      ensures fault.Some? ==> r == Err(BackendError(fault.value)) && State() == old(State())
      ensures fault.None? ==>
                var s := RunScript(dec, old(State()), zset, id, score);
                r == s.result && State() == s.queues
    {
      if fault.Some? {
        return Err(BackendError(fault.value));
      }
      ghost var q := State();
      assert ZSetAt(zset) == q.ZSet(zset);
      var msgs := Bucket(ZSetAt(zset), score);
      for i := 0 to |msgs|
        invariant forall j | 0 <= j < i :: Skips(dec, msgs[j], id)
        invariant State() == q
      {
        var decoded := dec(msgs[i]);
        if decoded.None? {
          FindMemberStopsAtFirst(dec, msgs, id, i);
          return Err(ScriptError);
        }
        if decoded.value.id == id {
          FindMemberStopsAtFirst(dec, msgs, id, i);
          var msg := msgs[i];
          MoveMemberConserves(q, zset, ZEntry(msg, score));
          ZRem(zset, msg);
          LPush(msg);
          return Ok(1);
        }
      }
      return Ok(0);
    }

    /** ZREM key member. */
    method ZRem(zset: ZKey, member: string)
      modifies this
      ensures State() == old(State()).WithZSet(zset, RemoveMember(old(State()).ZSet(zset), member))
    {
      match zset
      case ScheduledQ => scheduledQ := RemoveMember(scheduledQ, member);
      case RetryQ => retryQ := RemoveMember(retryQ, member);
      case DeadQ => deadQ := RemoveMember(deadQ, member);
    }

    /** LPUSH onto the ready list. */
    method LPush(member: string)
      modifies this
      ensures State() == old(State()).(defaultQ := [member] + old(defaultQ))
    {
      defaultQ := [member] + defaultQ;
    }

    /** Moves a task from the dead queue back to the ready list. */
    method Rescue(id: string, score: real, fault: Option<string>) returns (err: Option<Error>)
      requires Valid()
      modifies this
      ensures Valid()
      ensures fault.Some? ==> err == Some(BackendError(fault.value)) && State() == old(State())
      ensures fault.None? ==>
                var s := RunScript(dec, old(State()), DeadQ, id, score);
                err == MoveError(s.result) && State() == s.queues
    {
      var n := RemoveAndEnqueue(DeadQ, id, score, fault);
      err := MoveError(n);
    }

    /** Moves a task from the retry queue to the ready list. */
    method RetryNow(id: string, score: real, fault: Option<string>) returns (err: Option<Error>)
      requires Valid()
      modifies this
      ensures Valid()
      ensures fault.Some? ==> err == Some(BackendError(fault.value)) && State() == old(State())
      ensures fault.None? ==>
                var s := RunScript(dec, old(State()), RetryQ, id, score);
                err == MoveError(s.result) && State() == s.queues
    {
      var n := RemoveAndEnqueue(RetryQ, id, score, fault);
      err := MoveError(n);
    }

    /** Moves a task from the scheduled queue to the ready list. */
    method ProcessNow(id: string, score: real, fault: Option<string>) returns (err: Option<Error>)
      requires Valid()
      modifies this
      ensures Valid()
      ensures fault.Some? ==> err == Some(BackendError(fault.value)) && State() == old(State())
      ensures fault.None? ==>
                var s := RunScript(dec, old(State()), ScheduledQ, id, score);
                err == MoveError(s.result) && State() == s.queues
    {
      var n := RemoveAndEnqueue(ScheduledQ, id, score, fault);
      err := MoveError(n);
    }
  }
}
