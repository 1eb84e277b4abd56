/** The five queues as values, and the move script of `removeAndEnqueue`
    (internal/rdb/inspect.go) as a function from queues to queues. */
module Store {
  import opened Task

  /** A member of a score-ordered set with its score. */
  datatype ZEntry = ZEntry(member: string, score: real)

  /** The three score-ordered sets a task can be moved out of. */
  datatype ZKey = ScheduledQ | RetryQ | DeadQ

  /** The contents of the five keys. `defaultQ` (the ready list) and
      `inProgressQ` (the active list) are lists read head first; the other
      three are sorted sets in ascending score order. */
  datatype Queues = Queues(
    defaultQ: seq<string>,
    inProgressQ: seq<string>,
    scheduledQ: seq<ZEntry>,
    retryQ: seq<ZEntry>,
    deadQ: seq<ZEntry>)
  {
    function ZSet(k: ZKey): seq<ZEntry>
    {
      match k
      case ScheduledQ => scheduledQ
      case RetryQ => retryQ
      case DeadQ => deadQ
    }

    function WithZSet(k: ZKey, z: seq<ZEntry>): Queues
    {
      match k
      case ScheduledQ => this.(scheduledQ := z)
      case RetryQ => this.(retryQ := z)
      case DeadQ => this.(deadQ := z)
    }
  }

  /** A sorted set: members are unique and scores never decrease. */
  ghost predicate ValidZSet(z: seq<ZEntry>)
  {
    forall i, j | 0 <= i < j < |z| :: z[i].member != z[j].member && z[i].score <= z[j].score
  }

  ghost predicate ValidQueues(q: Queues)
  {
    ValidZSet(q.scheduledQ) && ValidZSet(q.retryQ) && ValidZSet(q.deadQ)
  }

  function Members(z: seq<ZEntry>): seq<string>
  {
    seq(|z|, i requires 0 <= i < |z| => z[i].member)
  }

  lemma MembersConcat(a: seq<ZEntry>, b: seq<ZEntry>)
    ensures Members(a + b) == Members(a) + Members(b)
  {
  }

  /** Every member string held by any of the five keys. */
  function AllMembers(q: Queues): seq<string>
  {
    q.defaultQ + q.inProgressQ + Members(q.scheduledQ) + Members(q.retryQ) + Members(q.deadQ)
  }

  /** Two members that decode to tasks with the same ID. */
  predicate SameTask(dec: Decoder, a: string, b: string)
  {
    dec(a).Some? && dec(b).Some? && dec(a).value.id == dec(b).value.id
  }

  /** The system-wide invariant: a task ID is held by at most one member of
      one queue. */
  ghost predicate UniqueIds(dec: Decoder, q: Queues)
  {
    var all := multiset(AllMembers(q));
    forall a, b | a in all && b in all && SameTask(dec, a, b) :: a == b && all[a] == 1
  }

  /** ZRANGEBYSCORE key s s: the members whose score is exactly `s`, in set order. */
  function Bucket(z: seq<ZEntry>, s: real): (r: seq<string>)
    ensures forall m :: m in r <==> ZEntry(m, s) in z
  {
    if z == [] then []
    else (if z[0].score == s then [z[0].member] else []) + Bucket(z[1..], s)
  }

  /** ZREM key m: the set without member `m`. */
  function RemoveMember(z: seq<ZEntry>, m: string): (r: seq<ZEntry>)
    ensures |r| <= |z|
  {
    if z == [] then []
    else (if z[0].member == m then [] else [z[0]]) + RemoveMember(z[1..], m)
  }

  /** ZREM keeps exactly the entries of other members. */
  lemma {:induction false} RemoveMemberContents(z: seq<ZEntry>, m: string, e: ZEntry)
    ensures e in RemoveMember(z, m) <==> e in z && e.member != m
  {
    if z != [] {
      RemoveMemberContents(z[1..], m, e);
      assert z == [z[0]] + z[1..];
    }
  }

  lemma {:induction false} RemoveAbsent(z: seq<ZEntry>, m: string)
    requires forall i | 0 <= i < |z| :: z[i].member != m
    ensures RemoveMember(z, m) == z
  {
    if z != [] {
      RemoveAbsent(z[1..], m);
    }
  }

  /** In a sorted set ZREM takes out exactly the one entry holding the member. */
  lemma {:induction false} RemoveMemberAt(z: seq<ZEntry>, i: nat)
    requires ValidZSet(z) && i < |z|
    ensures RemoveMember(z, z[i].member) == z[..i] + z[i + 1..]
  {
    var m := z[i].member;
    if i == 0 {
      RemoveAbsent(z[1..], m);
    } else {
      var tail := z[1..];
      assert tail[i - 1] == z[i];
      RemoveMemberAt(tail, i - 1);
      assert z[..i] + z[i + 1..] == [z[0]] + (tail[..i - 1] + tail[i..]);
    }
  }

  /** Taking one entry out of a sorted set leaves a sorted set. */
  lemma RemoveAtKeepsValid(z: seq<ZEntry>, i: nat)
    requires ValidZSet(z) && i < |z|
    ensures ValidZSet(z[..i] + z[i + 1..])
  {
  }


  predicate HasId(dec: Decoder, msg: string, id: string)
  {
    dec(msg).Some? && dec(msg).value.id == id
  }

  /** A candidate the script decodes and passes over. */
  predicate Skips(dec: Decoder, msg: string, id: string)
  {
    dec(msg).Some? && dec(msg).value.id != id
  }

  /** How the script's loop over the score bucket ends. */
  datatype Scan = Found(member: string) | NoMatch | Undecodable

  /** The loop of the move script: decode each candidate in turn and stop at
      the first whose ID is `id`; a candidate that does not decode makes
      `cjson.decode` raise. */
  function FindMember(dec: Decoder, msgs: seq<string>, id: string): (r: Scan)
    ensures r.Found? ==> r.member in msgs && HasId(dec, r.member, id)
    ensures r.NoMatch? <==> forall j | 0 <= j < |msgs| :: Skips(dec, msgs[j], id)
  {
    if msgs == [] then NoMatch
    else
      match dec(msgs[0])
      case None => Undecodable
      case Some(m) => if m.id == id then Found(msgs[0]) else FindMember(dec, msgs[1..], id)
  }

  /** The scan stops at the first candidate it does not pass over: that
      candidate is the one moved if it has the ID, and the script raises if it
      does not decode. */
  lemma {:induction false} FindMemberStopsAtFirst(dec: Decoder, msgs: seq<string>, id: string, k: nat)
    requires k < |msgs|
    requires forall j | 0 <= j < k :: Skips(dec, msgs[j], id)
    requires !Skips(dec, msgs[k], id)
    ensures FindMember(dec, msgs, id) == if HasId(dec, msgs[k], id) then Found(msgs[k]) else Undecodable
  {
    if k > 0 {
      var tail := msgs[1..];
      assert Skips(dec, msgs[0], id);
      assert forall j | 0 <= j < k - 1 :: tail[j] == msgs[j + 1];
      FindMemberStopsAtFirst(dec, tail, id, k - 1);
    }
  }

  /** ZREM of member `m` from key `k` followed by LPUSH of `m` onto the ready list. */
  function MoveMember(q: Queues, k: ZKey, m: string): (q': Queues)
    ensures q'.defaultQ == [m] + q.defaultQ
    ensures q'.ZSet(k) == RemoveMember(q.ZSet(k), m)
    ensures q'.inProgressQ == q.inProgressQ
    ensures forall k' | k' != k :: q'.ZSet(k') == q.ZSet(k')
  {
    q.WithZSet(k, RemoveMember(q.ZSet(k), m)).(defaultQ := [m] + q.defaultQ)
  }

  /** The state after a script run and the count it returns. */
  datatype Step = Step(queues: Queues, result: Result<int, Error>)

  /** The move script on key `k` (KEYS[1]) with ready list `defaultQ`
      (KEYS[2]), score ARGV[1] and ID ARGV[2], run atomically. */
  function RunScript(dec: Decoder, q: Queues, k: ZKey, id: string, score: real): (s: Step)
    ensures s.result != Ok(1) ==> s.queues == q
    ensures s.result == Ok(1) || s.result == Ok(0) || s.result == Err(ScriptError)
    ensures s.result == Ok(1) ==>
              |s.queues.defaultQ| == |q.defaultQ| + 1 &&
              var m := s.queues.defaultQ[0];
              && ZEntry(m, score) in q.ZSet(k)
              && HasId(dec, m, id)
              && s.queues.defaultQ == [m] + q.defaultQ
              && s.queues.ZSet(k) == RemoveMember(q.ZSet(k), m)
    ensures s.queues.inProgressQ == q.inProgressQ
    ensures forall k' | k' != k :: s.queues.ZSet(k') == q.ZSet(k')
  {
    match FindMember(dec, Bucket(q.ZSet(k), score), id)
    case Found(m) => Step(MoveMember(q, k, m), Ok(1))
    case NoMatch => Step(q, Ok(0))
    case Undecodable => Step(q, Err(ScriptError))
  }

  /** Successful move: when candidate `i` of the score bucket is the first
      with ID `id` and every earlier candidate decodes, exactly that member is
      taken out of the set and pushed onto the head of the ready list. */
  lemma MoveTakesFirstMatch(dec: Decoder, q: Queues, k: ZKey, id: string, score: real, i: nat)
    requires i < |Bucket(q.ZSet(k), score)|
    requires forall j | 0 <= j < i :: Skips(dec, Bucket(q.ZSet(k), score)[j], id)
    requires HasId(dec, Bucket(q.ZSet(k), score)[i], id)
    ensures var m := Bucket(q.ZSet(k), score)[i];
            var s := RunScript(dec, q, k, id, score);
            && s.result == Ok(1)
            && s.queues.defaultQ == [m] + q.defaultQ
            && s.queues.ZSet(k) == RemoveMember(q.ZSet(k), m)
  {
    FindMemberStopsAtFirst(dec, Bucket(q.ZSet(k), score), id, i);
  }

  /** Taking entry `i` out loses exactly its member string. */
  lemma MembersWithout(z: seq<ZEntry>, i: nat)
    requires i < |z|
    ensures multiset(Members(z[..i] + z[i + 1..])) + multiset{z[i].member} == multiset(Members(z))
  {
    assert z == z[..i] + [z[i]] + z[i + 1..];
    MembersConcat(z[..i] + [z[i]], z[i + 1..]);
    MembersConcat(z[..i], [z[i]]);
    MembersConcat(z[..i], z[i + 1..]);
  }

  /** ZREM of a member the sorted set holds: one entry fewer, the member's
      string is the only one lost, and the set stays sorted. */
  lemma RemoveMemberConserves(z: seq<ZEntry>, e: ZEntry)
    requires ValidZSet(z) && e in z
    ensures var r := RemoveMember(z, e.member);
            && ValidZSet(r)
            && |r| == |z| - 1
            && multiset(Members(r)) + multiset{e.member} == multiset(Members(z))
  {
    var i :| 0 <= i < |z| && z[i] == e;
    RemoveMemberAt(z, i);
    RemoveAtKeepsValid(z, i);
    MembersWithout(z, i);
  }

  /** Replacing a set by one holding one string fewer and pushing that string
      onto the ready list keeps the multiset of all members. */
  lemma MoveKeepsAll(q: Queues, k: ZKey, m: string, z: seq<ZEntry>)
    requires multiset(Members(z)) + multiset{m} == multiset(Members(q.ZSet(k)))
    ensures multiset(AllMembers(q.WithZSet(k, z).(defaultQ := [m] + q.defaultQ))) == multiset(AllMembers(q))
  {
    var q1 := q.WithZSet(k, z).(defaultQ := [m] + q.defaultQ);
    var lists := multiset([m] + q.defaultQ) + multiset(q.inProgressQ);
    var sc, rt, dd := multiset(Members(q.scheduledQ)), multiset(Members(q.retryQ)), multiset(Members(q.deadQ));
    assert multiset(AllMembers(q)) == multiset(q.defaultQ) + multiset(q.inProgressQ) + sc + rt + dd;
    match k
    case ScheduledQ =>
      assert q1 == Queues([m] + q.defaultQ, q.inProgressQ, z, q.retryQ, q.deadQ);
      assert multiset(AllMembers(q1)) == lists + multiset(Members(z)) + rt + dd;
    case RetryQ =>
      assert q1 == Queues([m] + q.defaultQ, q.inProgressQ, q.scheduledQ, z, q.deadQ);
      assert multiset(AllMembers(q1)) == lists + sc + multiset(Members(z)) + dd;
    case DeadQ =>
      assert q1 == Queues([m] + q.defaultQ, q.inProgressQ, q.scheduledQ, q.retryQ, z);
      assert multiset(AllMembers(q1)) == lists + sc + rt + multiset(Members(z));
  }

  lemma MoveMemberConserves(q: Queues, k: ZKey, e: ZEntry)
    requires ValidQueues(q) && e in q.ZSet(k)
    ensures var q1 := MoveMember(q, k, e.member);
            && ValidQueues(q1)
            && |q1.ZSet(k)| == |q.ZSet(k)| - 1
            && multiset(Members(q1.ZSet(k))) + multiset{e.member} == multiset(Members(q.ZSet(k)))
            && multiset(AllMembers(q1)) == multiset(AllMembers(q))
  {
    RemoveMemberConserves(q.ZSet(k), e);
    MoveKeepsAll(q, k, e.member, RemoveMember(q.ZSet(k), e.member));
  }

  /** Conservation: a move takes one entry out of the set and puts the same
      string on the ready list; the multiset of all members is unchanged and
      the sets stay sorted. */
  lemma MoveConserves(dec: Decoder, q: Queues, k: ZKey, id: string, score: real)
    requires ValidQueues(q)
    ensures var s := RunScript(dec, q, k, id, score);
            && ValidQueues(s.queues)
            && multiset(AllMembers(s.queues)) == multiset(AllMembers(q))
            && (s.result == Ok(1) ==>
                  && |s.queues.ZSet(k)| == |q.ZSet(k)| - 1
                  && |s.queues.defaultQ| == |q.defaultQ| + 1
                  && multiset(Members(s.queues.ZSet(k))) + multiset{s.queues.defaultQ[0]}
                     == multiset(Members(q.ZSet(k))))
  {
    var s := RunScript(dec, q, k, id, score);
    if s.result == Ok(1) {
      MoveMemberConserves(q, k, ZEntry(s.queues.defaultQ[0], score));
    }
  }

  /** The ID invariant survives a move. */
  lemma MoveKeepsIdsUnique(dec: Decoder, q: Queues, k: ZKey, id: string, score: real)
    requires ValidQueues(q) && UniqueIds(dec, q)
    ensures UniqueIds(dec, RunScript(dec, q, k, id, score).queues)
  {
    MoveConserves(dec, q, k, id, score);
  }

  lemma MemberOfAll(q: Queues, k: ZKey, e: ZEntry)
    requires e in q.ZSet(k)
    ensures e.member in multiset(AllMembers(q))
  {
    var z := q.ZSet(k);
    var i :| 0 <= i < |z| && z[i] == e;
    assert Members(z)[i] == e.member;
  }

  /** Under the ID invariant, once member `m` with ID `id` is taken out of the
      set, no entry left in the set has that ID. */
  lemma NoOtherHolder(dec: Decoder, q: Queues, k: ZKey, e: ZEntry, id: string, e2: ZEntry)
    requires UniqueIds(dec, q)
    requires e in q.ZSet(k) && HasId(dec, e.member, id)
    requires e2 in RemoveMember(q.ZSet(k), e.member)
    ensures !HasId(dec, e2.member, id)
  {
    RemoveMemberContents(q.ZSet(k), e.member, e2);
    MemberOfAll(q, k, e);
    MemberOfAll(q, k, e2);
  }

  /** At most one entry of `z` with score `score` carries the ID `id`. */
  ghost predicate OneHolderAt(dec: Decoder, z: seq<ZEntry>, id: string, score: real)
  {
    forall e1, e2 | e1 in z && e2 in z && e1.score == score && e2.score == score
                    && HasId(dec, e1.member, id) && HasId(dec, e2.member, id) :: e1 == e2
  }

  /** The system-wide ID invariant gives one holder in every score bucket. */
  lemma UniqueIdsOneHolder(dec: Decoder, q: Queues, k: ZKey, id: string, score: real)
    requires UniqueIds(dec, q)
    ensures OneHolderAt(dec, q.ZSet(k), id, score)
  {
    forall e1, e2 | e1 in q.ZSet(k) && e2 in q.ZSet(k) && e1.score == score && e2.score == score
                    && HasId(dec, e1.member, id) && HasId(dec, e2.member, id)
      ensures e1 == e2
    {
      MemberOfAll(q, k, e1);
      MemberOfAll(q, k, e2);
    }
  }

  /** Double submission: once a move of (`id`, `score`) has succeeded, and no
      other member with that score carries the ID, the same move again finds
      nothing to move and changes nothing; it reports no match, or a script
      error if the bucket holds a member that does not decode. */
  lemma SecondMoveFindsNothing(dec: Decoder, q: Queues, k: ZKey, id: string, score: real)
    requires OneHolderAt(dec, q.ZSet(k), id, score)
    requires RunScript(dec, q, k, id, score).result == Ok(1)
    ensures var q1 := RunScript(dec, q, k, id, score).queues;
            var s2 := RunScript(dec, q1, k, id, score);
            && s2.queues == q1
            && (s2.result == Ok(0) || s2.result == Err(ScriptError))
            && ((forall e | e in q.ZSet(k) && e.score == score :: dec(e.member).Some?) ==> s2.result == Ok(0))
  {
    var q1 := RunScript(dec, q, k, id, score).queues;
    var m := q1.defaultQ[0];
    var z1 := q1.ZSet(k);
    assert z1 == RemoveMember(q.ZSet(k), m);
    var b1 := Bucket(z1, score);
    forall j | 0 <= j < |b1| ensures !HasId(dec, b1[j], id) {
      assert ZEntry(b1[j], score) in z1;
      RemoveMemberContents(q.ZSet(k), m, ZEntry(b1[j], score));
    }
    assert !FindMember(dec, b1, id).Found?;
    if forall e | e in q.ZSet(k) && e.score == score :: dec(e.member).Some? {
      forall j | 0 <= j < |b1| ensures Skips(dec, b1[j], id) {
        assert ZEntry(b1[j], score) in z1;
        RemoveMemberContents(q.ZSet(k), m, ZEntry(b1[j], score));
      }
    }
  }

  /** Without one holder per bucket the repeat is not idempotent: two distinct
      members with the same ID and the same score are moved by two identical
      runs, one each, the second ending up at the head of the ready list. */
  lemma RepeatMovesSecondCopy(dec: Decoder, a: string, b: string)
    requires a != b && HasId(dec, a, "x") && HasId(dec, b, "x")
    ensures var q := Queues([], [], [], [], [ZEntry(a, 1.0), ZEntry(b, 1.0)]);
            var s1 := RunScript(dec, q, DeadQ, "x", 1.0);
            var s2 := RunScript(dec, s1.queues, DeadQ, "x", 1.0);
            && ValidQueues(q)
            && !OneHolderAt(dec, q.deadQ, "x", 1.0)
            && s1.result == Ok(1) && s2.result == Ok(1)
            && s2.queues.defaultQ == [b, a] && s2.queues.deadQ == []
  {
    var ea, eb := ZEntry(a, 1.0), ZEntry(b, 1.0);
    assert ValidZSet([ea, eb]);
    assert !OneHolderAt(dec, [ea, eb], "x", 1.0) by {
      assert ea in [ea, eb] && eb in [ea, eb] && ea != eb;
    }
    var s1 := SecondCopyFirstRun(dec, a, b);
    SecondCopySecondRun(dec, a, b);
  }

  /** The second of the two runs above: `b` is now the only candidate. */
  lemma SecondCopySecondRun(dec: Decoder, a: string, b: string)
    requires HasId(dec, b, "x")
    ensures RunScript(dec, Queues([a], [], [], [], [ZEntry(b, 1.0)]), DeadQ, "x", 1.0)
            == Step(Queues([b, a], [], [], [], []), Ok(1))
  {
    var z := [ZEntry(b, 1.0)];
    assert z[1..] == [];
    assert Bucket(z, 1.0) == [b];
    assert FindMember(dec, [b], "x") == Found(b);
    assert RemoveMember(z, b) == [];
  }

  /** The first of the two runs above: `a` is found first and moved. */
  lemma SecondCopyFirstRun(dec: Decoder, a: string, b: string) returns (s1: Step)
    requires a != b && HasId(dec, a, "x")
    ensures s1 == RunScript(dec, Queues([], [], [], [], [ZEntry(a, 1.0), ZEntry(b, 1.0)]), DeadQ, "x", 1.0)
    ensures s1.result == Ok(1) && s1.queues == Queues([a], [], [], [], [ZEntry(b, 1.0)])
  {
    var z := [ZEntry(a, 1.0), ZEntry(b, 1.0)];
    assert z[1..] == [ZEntry(b, 1.0)] && z[1..][1..] == [];
    assert Bucket(z[1..], 1.0) == [b];
    assert Bucket(z, 1.0) == [a, b];
    assert FindMember(dec, [a, b], "x") == Found(a);
    assert RemoveMember(z[1..], a) == [ZEntry(b, 1.0)];
    s1 := RunScript(dec, Queues([], [], [], [], z), DeadQ, "x", 1.0);
  }

  /** The error the three wrappers return for a script outcome: the backend
      error itself, `TaskNotFound` for a count of zero, nothing otherwise. */
  function MoveError(res: Result<int, Error>): (err: Option<Error>)
    ensures err.None? <==> res.Ok? && res.value != 0
    ensures res == Ok(0) ==> err == Some(TaskNotFound)
    ensures res.Err? ==> err == Some(res.error)
  {
    match res
    case Err(e) => Some(e)
    case Ok(n) => if n == 0 then Some(TaskNotFound) else None
  }

  /** Candidate `i` is the first of `msgs` the scan does not pass over. */
  predicate StopsAt(dec: Decoder, msgs: seq<string>, id: string, i: int)
  {
    && 0 <= i < |msgs|
    && (forall j | 0 <= j < i :: Skips(dec, msgs[j], id))
    && !Skips(dec, msgs[i], id)
  }

  /** A scan that does not run to the end stops at some candidate. */
  lemma {:induction false} ScanStops(dec: Decoder, msgs: seq<string>, id: string)
    requires !FindMember(dec, msgs, id).NoMatch?
    ensures exists i :: StopsAt(dec, msgs, id, i)
  {
    if Skips(dec, msgs[0], id) {
      var tail := msgs[1..];
      ScanStops(dec, tail, id);
      var i :| StopsAt(dec, tail, id, i);
      assert forall j | 0 < j <= i :: msgs[j] == tail[j - 1];
      assert StopsAt(dec, msgs, id, i + 1);
    } else {
      assert StopsAt(dec, msgs, id, 0);
    }
  }

  /** What an operator sees, in terms of the candidates alone: success exactly
      when the first candidate not passed over has the ID, `TaskNotFound`
      exactly when every candidate decodes to another ID, a script error
      exactly when the first candidate not passed over does not decode. */
  lemma MoveOutcome(dec: Decoder, q: Queues, k: ZKey, id: string, score: real)
    ensures var s := RunScript(dec, q, k, id, score);
            var b := Bucket(q.ZSet(k), score);
            && (MoveError(s.result).None? <==>
                  exists i :: StopsAt(dec, b, id, i) && HasId(dec, b[i], id))
            && (MoveError(s.result) == Some(TaskNotFound) <==> forall m | m in b :: Skips(dec, m, id))
            && (MoveError(s.result) == Some(ScriptError) <==>
                  exists i :: StopsAt(dec, b, id, i) && dec(b[i]).None?)
  {
    var b := Bucket(q.ZSet(k), score);
    if !FindMember(dec, b, id).NoMatch? {
      ScanStops(dec, b, id);
      var i :| StopsAt(dec, b, id, i);
      FindMemberStopsAtFirst(dec, b, id, i);
      forall i' | StopsAt(dec, b, id, i') ensures i' == i {
        assert !(i' < i) && !(i < i');
      }
    } else {
      forall i | 0 <= i < |b| ensures !StopsAt(dec, b, id, i) {
        assert Skips(dec, b[i], id);
      }
    }
  }

  /** The distinct members of a sorted set. */
  function MemberSet(z: seq<ZEntry>): set<string>
  {
    set e | e in z :: e.member
  }

  /** Adding an entry in front adds its member to the distinct members. */
  lemma MemberSetCons(z: seq<ZEntry>)
    requires z != []
    ensures MemberSet(z) == {z[0].member} + MemberSet(z[1..])
  {
    assert z == [z[0]] + z[1..];
  }

  lemma NotAMember(z: seq<ZEntry>, m: string)
    requires forall i | 0 <= i < |z| :: z[i].member != m
    ensures m !in MemberSet(z)
  {
  }

  /** A sorted set holds as many distinct members as it has entries. */
  lemma {:induction false} DistinctMembers(z: seq<ZEntry>)
    requires ValidZSet(z)
    ensures |MemberSet(z)| == |z|
  {
    if z != [] {
      var tail := z[1..];
      assert ValidZSet(tail) by {
        RemoveAtKeepsValid(z, 0);
        assert z[..0] + z[1..] == tail;
      }
      DistinctMembers(tail);
      MemberSetCons(z);
      assert forall i | 0 <= i < |tail| :: tail[i] == z[i + 1];
      NotAMember(tail, z[0].member);
    }
  }

  lemma ZCardCountsMembers(z: seq<ZEntry>)
    ensures ValidZSet(z) ==> |MemberSet(z)| == |z|
  {
    if ValidZSet(z) {
      DistinctMembers(z);
    }
  }

  /** LLEN and ZCARD of the five keys, as reported by CurrentStats: list
      lengths, and for a sorted set the number of distinct members. */
  function Cardinalities(q: Queues, now: int): (st: Stats)
    ensures st.enqueued == |q.defaultQ| && st.inProgress == |q.inProgressQ| && st.timestamp == now
    ensures ValidQueues(q) ==>
              && st.scheduled == |MemberSet(q.scheduledQ)|
              && st.retry == |MemberSet(q.retryQ)|
              && st.dead == |MemberSet(q.deadQ)|
  {
    ZCardCountsMembers(q.scheduledQ);
    ZCardCountsMembers(q.retryQ);
    ZCardCountsMembers(q.deadQ);
    Stats(|q.defaultQ|, |q.inProgressQ|, |q.scheduledQ|, |q.retryQ|, |q.deadQ|, now)
  }

  function Count(st: Stats, k: ZKey): int
  {
    match k
    case ScheduledQ => st.scheduled
    case RetryQ => st.retry
    case DeadQ => st.dead
  }

  /** After a successful move the ready count is one more, the source count
      one less, and every other count is the same. */
  lemma MoveShiftsCounts(dec: Decoder, q: Queues, k: ZKey, id: string, score: real, now: int)
    requires ValidQueues(q)
    requires RunScript(dec, q, k, id, score).result == Ok(1)
    ensures var before := Cardinalities(q, now);
            var after := Cardinalities(RunScript(dec, q, k, id, score).queues, now);
            && after.enqueued == before.enqueued + 1
            && Count(after, k) == Count(before, k) - 1
            && after.inProgress == before.inProgress
            && forall k' | k' != k :: Count(after, k') == Count(before, k')
  {
    MoveConserves(dec, q, k, id, score);
  }
}
