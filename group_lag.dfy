/** The lag of one consumer group (calculateGroupLag, main.go:145-210).

    The broker is reduced to what it answers: the group description (or an error), whether the
    group's offset manager could be opened, the newest offset of each (topic, partition), and for
    each (topic, partition) the partition offset manager (an error, nil, or the committed offset
    its NextOffset reports). Go's map iteration order is unspecified, so every loop over a map
    picks its next key with `:|`: the methods below are verified for every visiting order. */
module GroupLag {
  import opened Wrappers
  import opened GoInt
  import opened Exposition

  type Topic = string
  /** A partition id; the model only passes it to the broker. */
  type Partition = int
  type MemberId = string
  type Error = string

  /** A decoded member assignment; `topics` is None when its Topics map is nil. */
  datatype MemberAssignment = MemberAssignment(topics: Option<map<Topic, seq<Partition>>>)

  /** A group member, by the outcome of decoding its assignment: an error, a nil assignment
      (None), or the assignment. */
  datatype Member = Member(assignment: Result<Option<MemberAssignment>, Error>)

  datatype GroupDescription = GroupDescription(members: map<MemberId, Member>)

  /** The broker's answers for one group. `managePartition` gives Success(None) for a nil
      partition offset manager and Success(Some(c)) for one whose next offset is c. */
  datatype Broker = Broker(
    describe: Result<seq<GroupDescription>, Error>,
    openOffsetManager: Option<Error>,
    newest: (Topic, Partition) -> Result<int64, Error>,
    managePartition: (Topic, Partition) -> Result<Option<int64>, Error>)

  /** The committed offset reported for a partition the group has never committed. */
  const Unset: int64 := -1

  /** The committed offset a partition's lag is measured from: an unset one is replaced by the
      newest offset (main.go:191-194). */
  function EffectiveCommitted(newest: int64, committed: int64): int64 {
    if committed == Unset then newest else committed
  }

  /** Go's int64 lag of one partition (main.go:197): not clamped, so a committed offset past the
      newest one gives a negative lag. */
  ghost function PartitionLag(newest: int64, committed: int64): (lag: int64)
    ensures committed == Unset ==> lag == 0
    ensures committed != Unset && MinInt64 <= newest - committed <= MaxInt64 ==> lag == newest - committed
    ensures committed != Unset && 0 <= newest && 0 <= committed ==> lag == newest - committed
    ensures committed != Unset && 0 <= newest < committed ==> lag < 0
  {
    Wrap(newest - EffectiveCommitted(newest, committed))
  }

  /** What visiting one partition yields: an error that ends the walk, a skip (nil partition
      offset manager), or the two offsets whose difference is added to the topic. */
  datatype Reading = Failed(error: Error) | Skipped | Counted(newest: int64, committed: int64)

  function Read(b: Broker, topic: Topic, partition: Partition): Reading {
    match b.newest(topic, partition)
    case Failure(e) => Failed(e)
    case Success(newest) =>
      match b.managePartition(topic, partition)
      case Failure(e) => Failed(e)
      case Success(None) => Skipped
      case Success(Some(committed)) => Counted(newest, committed)
  }

  /** The exact lag a reading adds, before the int64 wrap: PartitionLag is its wrap, and the
      specification sums add these exact values, which is the same once the sum is wrapped
      (GoInt.WrapAddWrapped). */
  function Amount(r: Reading): int {
    if r.Counted? then r.newest - EffectiveCommitted(r.newest, r.committed) else 0
  }

  /** Go's read of a missing map key: the zero value. */
  function Get0(lags: map<Topic, int64>, topic: Topic): int64 {
    if topic in lags then lags[topic] else 0
  }

  /** `lags[topic] += amount`, on the exact amount. */
  ghost function Credit(lags: map<Topic, int64>, topic: Topic, amount: int): map<Topic, int64> {
    lags[topic := Wrap(Get0(lags, topic) + amount)]
  }

  // ---------------------------------------------------------------- partitions of one topic

  /** Some of the first n partitions adds a lag (and so creates the topic's entry). */
  predicate PartitionsTouch(b: Broker, topic: Topic, partitions: seq<Partition>, n: nat)
    requires n <= |partitions|
  {
    n > 0 && (PartitionsTouch(b, topic, partitions, n - 1) || Read(b, topic, partitions[n - 1]).Counted?)
  }

  /** The exact sum of the lags the first n partitions add. */
  function PartitionsSum(b: Broker, topic: Topic, partitions: seq<Partition>, n: nat): (s: int)
    requires n <= |partitions|
    ensures !PartitionsTouch(b, topic, partitions, n) ==> s == 0
  {
    if n == 0 then 0
    else PartitionsSum(b, topic, partitions, n - 1) + Amount(Read(b, topic, partitions[n - 1]))
  }

  /** The error of the first failing partition at index k or later, in slice order. */
  function PartitionsError(b: Broker, topic: Topic, partitions: seq<Partition>, k: nat): Option<Error>
    requires k <= |partitions|
    decreases |partitions| - k
  {
    if k == |partitions| then None
    else match Read(b, topic, partitions[k])
      case Failed(e) => Some(e)
      case _ => PartitionsError(b, topic, partitions, k + 1)
  }

  // ---------------------------------------------------------------- one member

  /** The member's topics, or none when decoding failed or the assignment or its Topics is nil. */
  function AssignedTopics(m: Member): map<Topic, seq<Partition>> {
    match m.assignment
    case Success(Some(MemberAssignment(Some(topics)))) => topics
    case _ => map[]
  }

  predicate MemberTouches(b: Broker, m: Member, topic: Topic) {
    var topics := AssignedTopics(m);
    topic in topics && PartitionsTouch(b, topic, topics[topic], |topics[topic]|)
  }

  function MemberSum(b: Broker, m: Member, topic: Topic): int {
    var topics := AssignedTopics(m);
    if topic in topics then PartitionsSum(b, topic, topics[topic], |topics[topic]|) else 0
  }

  /** The first error of a topic's partitions. */
  function TopicError(b: Broker, topics: map<Topic, seq<Partition>>, topic: Topic): Option<Error>
    requires topic in topics
  {
    PartitionsError(b, topic, topics[topic], 0)
  }

  /** The errors the walk over this member can stop with: its decoding error, or the first
      failing partition of any of its topics (whichever topic Go's map order visits first). */
  function MemberErrors(b: Broker, m: Member): set<Error> {
    if m.assignment.Failure? then {m.assignment.error}
    else
      var topics := AssignedTopics(m);
      set t | t in topics && TopicError(b, topics, t).Some? :: TopicError(b, topics, t).value
  }

  /** The entry of topic t in `after` is that in `before` with every lag of member m added. */
  ghost predicate AddedAt(b: Broker, before: map<Topic, int64>, after: map<Topic, int64>, m: Member, t: Topic) {
    && (t in after <==> t in before || MemberTouches(b, m, t))
    && (t in after ==> after[t] == Wrap(Get0(before, t) + MemberSum(b, m, t)))
  }

  /** `after` is `before` with every lag of member m added to its topic. */
  ghost predicate MemberAdded(b: Broker, before: map<Topic, int64>, after: map<Topic, int64>, m: Member) {
    forall t :: AddedAt(b, before, after, m, t)
  }

  // ---------------------------------------------------------------- the members of a description

  ghost predicate MembersTouch(b: Broker, members: map<MemberId, Member>, ids: set<MemberId>, topic: Topic)
    requires ids <= members.Keys
  {
    exists id :: id in ids && MemberTouches(b, members[id], topic)
  }

  /** The exact lag of `topic` summed over the members `ids`, in no particular order. */
  ghost function MembersSum(b: Broker, members: map<MemberId, Member>, ids: set<MemberId>, topic: Topic): (s: int)
    requires ids <= members.Keys
    ensures !MembersTouch(b, members, ids, topic) ==> s == 0
    decreases ids
  {
    if ids == {} then 0
    else
      var id :| id in ids;
      MemberSum(b, members[id], topic) + MembersSum(b, members, ids - {id}, topic)
  }

  /** The errors the walk over one description can stop with. */
  function DescriptionErrors(b: Broker, d: GroupDescription): set<Error> {
    set id, e | id in d.members && e in MemberErrors(b, d.members[id]) :: e
  }

  // ---------------------------------------------------------------- the whole group

  /** Some member of the first n descriptions adds a lag to `topic`. */
  ghost predicate DescriptionsTouch(b: Broker, ds: seq<GroupDescription>, n: nat, topic: Topic)
    requires n <= |ds|
  {
    n > 0 && (DescriptionsTouch(b, ds, n - 1, topic) || MembersTouch(b, ds[n - 1].members, ds[n - 1].members.Keys, topic))
  }

  /** The exact lag of `topic` summed over every (member, partition) pair of the first n
      descriptions. */
  ghost function DescriptionsSum(b: Broker, ds: seq<GroupDescription>, n: nat, topic: Topic): (s: int)
    requires n <= |ds|
    ensures !DescriptionsTouch(b, ds, n, topic) ==> s == 0
  {
    if n == 0 then 0
    else DescriptionsSum(b, ds, n - 1, topic) + MembersSum(b, ds[n - 1].members, ds[n - 1].members.Keys, topic)
  }

  /** The errors of the first description at index i or later (in slice order) whose walk can
      fail. */
  function FirstErrors(b: Broker, ds: seq<GroupDescription>, i: nat): set<Error>
    requires i <= |ds|
    decreases |ds| - i
  {
    if i == |ds| then {}
    else if DescriptionErrors(b, ds[i]) != {} then DescriptionErrors(b, ds[i])
    else FirstErrors(b, ds, i + 1)
  }

  /** The errors calculateGroupLag can return; it succeeds exactly when this set is empty. */
  function GroupErrors(b: Broker): set<Error> {
    match b.describe
    case Failure(e) => {e}
    case Success(ds) =>
      if b.openOffsetManager.Some? then {b.openOffsetManager.value} else FirstErrors(b, ds, 0)
  }

  function Descriptions(b: Broker): seq<GroupDescription> {
    if b.describe.Success? then b.describe.value else []
  }

  /** Every topic some member of the descriptions is assigned. */
  function AssignedTopicsOf(ds: seq<GroupDescription>): set<Topic> {
    set i, id, t | 0 <= i < |ds| && id in ds[i].members && t in AssignedTopics(ds[i].members[id]) :: t
  }

  /** The per-topic lag the group reports: one entry per topic some partition added a lag to,
      holding the int64 sum of those lags. */
  ghost function GroupLags(b: Broker): map<Topic, int64> {
    var ds := Descriptions(b);
    map t | t in AssignedTopicsOf(ds) && DescriptionsTouch(b, ds, |ds|, t) :: Wrap(DescriptionsSum(b, ds, |ds|, t))
  }

  /** `lines` holds exactly one metric line per entry of `lags`, in the visiting order `order`. */
  ghost predicate Emits(namespace: string, group: string, lags: map<Topic, int64>, lines: seq<string>, order: seq<Topic>) {
    && |lines| == |order|
    && (forall i, j :: 0 <= i < j < |order| ==> order[i] != order[j])
    && (forall t :: t in order <==> t in lags)
    && (forall i :: 0 <= i < |order| ==> order[i] in lags && lines[i] == MetricLine(namespace, group, order[i], lags[order[i]]))
  }

  /** What calculateGroupLag returns and pushes: an error from GroupErrors and no line, or one
      line per topic of GroupLags. */
  ghost predicate GroupOutcome(b: Broker, namespace: string, group: string, r: Result<seq<string>, Error>, order: seq<Topic>) {
    && (r.Failure? <==> GroupErrors(b) != {})
    && (r.Failure? ==> r.error in GroupErrors(b))
    && (r.Success? ==> Emits(namespace, group, GroupLags(b), r.value, order))
  }

  // ---------------------------------------------------------------- order does not matter

  /** Members may be summed in any order: any one of them can be taken out first. */
  lemma {:induction false} MembersSumRemove(b: Broker, members: map<MemberId, Member>, ids: set<MemberId>, id: MemberId, topic: Topic)
    requires ids <= members.Keys && id in ids
    ensures MembersSum(b, members, ids, topic) == MemberSum(b, members[id], topic) + MembersSum(b, members, ids - {id}, topic)
    decreases ids
  {
    var x :| x in ids && MembersSum(b, members, ids, topic) == MemberSum(b, members[x], topic) + MembersSum(b, members, ids - {x}, topic);
    if x != id {
      MembersSumRemove(b, members, ids - {x}, id, topic);
      MembersSumRemove(b, members, ids - {id}, x, topic);
      assert ids - {x} - {id} == ids - {id} - {x};
    }
  }

  /** Sum and touch of the first n partitions depend on those partitions only. */
  lemma {:induction false} PartitionsPrefix(b: Broker, topic: Topic, ps: seq<Partition>, qs: seq<Partition>, n: nat)
    requires n <= |ps| && n <= |qs|
    requires forall i :: 0 <= i < n ==> ps[i] == qs[i]
    ensures PartitionsSum(b, topic, ps, n) == PartitionsSum(b, topic, qs, n)
    ensures PartitionsTouch(b, topic, ps, n) == PartitionsTouch(b, topic, qs, n)
  {
    if n > 0 {
      PartitionsPrefix(b, topic, ps, qs, n - 1);
    }
  }

  /** The sum over a concatenation is the sum of the sums; it touches if either part does. */
  lemma {:induction false} PartitionsConcat(b: Broker, topic: Topic, xs: seq<Partition>, ys: seq<Partition>, j: nat)
    requires j <= |ys|
    ensures PartitionsSum(b, topic, xs + ys, |xs| + j) == PartitionsSum(b, topic, xs, |xs|) + PartitionsSum(b, topic, ys, j)
    ensures PartitionsTouch(b, topic, xs + ys, |xs| + j) == (PartitionsTouch(b, topic, xs, |xs|) || PartitionsTouch(b, topic, ys, j))
  {
    if j == 0 {
      PartitionsPrefix(b, topic, xs + ys, xs, |xs|);
    } else {
      PartitionsConcat(b, topic, xs, ys, j - 1);
      assert (xs + ys)[|xs| + j - 1] == ys[j - 1];
    }
  }

  /** Taking one partition out of the list takes its amount out of the sum. */
  lemma PartitionsRemoveAt(b: Broker, topic: Topic, qs: seq<Partition>, k: nat)
    requires k < |qs|
    ensures var rest := qs[..k] + qs[k + 1..];
      && PartitionsSum(b, topic, qs, |qs|) == PartitionsSum(b, topic, rest, |rest|) + Amount(Read(b, topic, qs[k]))
      && PartitionsTouch(b, topic, qs, |qs|) == (PartitionsTouch(b, topic, rest, |rest|) || Read(b, topic, qs[k]).Counted?)
  {
    var x, front, tail := qs[k], qs[..k], qs[k + 1..];
    var mid := [x] + tail;
    assert qs == front + mid;
    PartitionsConcat(b, topic, front, mid, |mid|);
    PartitionsConcat(b, topic, [x], tail, |tail|);
    PartitionsConcat(b, topic, front, tail, |tail|);
    assert PartitionsSum(b, topic, [x], 1) == Amount(Read(b, topic, x));
    assert PartitionsTouch(b, topic, [x], 1) == Read(b, topic, x).Counted?;
  }

  /** Removing the same element from two permutations of each other leaves permutations. */
  lemma MultisetRemoveLast(ps: seq<Partition>, qs: seq<Partition>, k: nat)
    requires multiset(ps) == multiset(qs) && |ps| > 0
    requires k < |qs| && qs[k] == ps[|ps| - 1]
    ensures multiset(ps[..|ps| - 1]) == multiset(qs[..k] + qs[k + 1..])
  {
    var n, x := |ps| - 1, ps[|ps| - 1];
    var rest := qs[..k] + qs[k + 1..];
    assert ps == ps[..n] + [x];
    assert qs == qs[..k] + [x] + qs[k + 1..];
    assert multiset(ps[..n]) + multiset{x} == multiset(rest) + multiset{x};
    forall y ensures multiset(ps[..n])[y] == multiset(rest)[y] {
      assert (multiset(ps[..n]) + multiset{x})[y] == (multiset(rest) + multiset{x})[y];
    }
  }

  /** The partitions of a topic may be visited in any order: a permutation of the slice adds
      the same lags and creates the topic's entry under the same condition. */
  lemma {:induction false} PartitionsPermutation(b: Broker, topic: Topic, ps: seq<Partition>, qs: seq<Partition>)
    requires multiset(ps) == multiset(qs)
    ensures PartitionsSum(b, topic, ps, |ps|) == PartitionsSum(b, topic, qs, |qs|)
    ensures PartitionsTouch(b, topic, ps, |ps|) == PartitionsTouch(b, topic, qs, |qs|)
    decreases |ps|
  {
    if |ps| == 0 {
      assert |qs| == |multiset(qs)| == 0;
    } else {
      var n := |ps| - 1;
      assert ps[n] in multiset(qs);
      var k :| 0 <= k < |qs| && qs[k] == ps[n];
      MultisetRemoveLast(ps, qs, k);
      PartitionsPermutation(b, topic, ps[..n], qs[..k] + qs[k + 1..]);
      PartitionsRemoveAt(b, topic, qs, k);
      PartitionsPrefix(b, topic, ps, ps[..n], n);
    }
  }

  // ---------------------------------------------------------------- what adds nothing

  /** Past the removed index, the shorter list is the longer one shifted by one. */
  lemma {:induction false} PartitionsErrorShifted(b: Broker, topic: Topic, ps: seq<Partition>, k: nat, i: nat)
    requires k < |ps| && k <= i < |ps|
    ensures PartitionsError(b, topic, ps, i + 1) == PartitionsError(b, topic, ps[..k] + ps[k + 1..], i)
    decreases |ps| - i
  {
    var rest := ps[..k] + ps[k + 1..];
    if i + 1 < |ps| {
      assert rest[i] == ps[i + 1];
      PartitionsErrorShifted(b, topic, ps, k, i + 1);
    }
  }

  /** Before the removed index, the two lists agree as long as the removed partition does
      not fail. */
  lemma {:induction false} PartitionsErrorBefore(b: Broker, topic: Topic, ps: seq<Partition>, k: nat, i: nat)
    requires k < |ps| && i <= k && !Read(b, topic, ps[k]).Failed?
    ensures PartitionsError(b, topic, ps, i) == PartitionsError(b, topic, ps[..k] + ps[k + 1..], i)
    decreases k - i
  {
    var rest := ps[..k] + ps[k + 1..];
    if i == k {
      PartitionsErrorShifted(b, topic, ps, k, k);
    } else {
      assert rest[i] == ps[i];
      PartitionsErrorBefore(b, topic, ps, k, i + 1);
    }
  }

  /** A partition whose offset manager is nil adds nothing, creates no entry and raises no
      error: the walk over the list is the walk over the list without it. */
  lemma SkippedPartitionAddsNothing(b: Broker, topic: Topic, ps: seq<Partition>, k: nat)
    requires k < |ps| && Read(b, topic, ps[k]) == Skipped
    ensures var rest := ps[..k] + ps[k + 1..];
      && PartitionsSum(b, topic, ps, |ps|) == PartitionsSum(b, topic, rest, |rest|)
      && PartitionsTouch(b, topic, ps, |ps|) == PartitionsTouch(b, topic, rest, |rest|)
      && PartitionsError(b, topic, ps, 0) == PartitionsError(b, topic, rest, 0)
  {
    PartitionsRemoveAt(b, topic, ps, k);
    PartitionsErrorBefore(b, topic, ps, k, 0);
  }

  /** A member whose assignment, or whose Topics map, is nil adds nothing to any topic and
      raises no error: the walk goes on with the other members. */
  lemma UnassignedMemberAddsNothing(b: Broker, members: map<MemberId, Member>, ids: set<MemberId>, id: MemberId, topic: Topic)
    requires ids <= members.Keys && id in ids
    requires members[id].assignment == Success(None) || members[id].assignment == Success(Some(MemberAssignment(None)))
    ensures MemberErrors(b, members[id]) == {}
    ensures MembersSum(b, members, ids, topic) == MembersSum(b, members, ids - {id}, topic)
    ensures MembersTouch(b, members, ids, topic) <==> MembersTouch(b, members, ids - {id}, topic)
  {
    MembersSumRemove(b, members, ids, id, topic);
  }

  // ---------------------------------------------------------------- when the walk fails

  /** No partition at index k or later fails to read. */
  predicate PartitionsClean(b: Broker, topic: Topic, ps: seq<Partition>, k: nat) {
    forall j :: k <= j < |ps| ==> !Read(b, topic, ps[j]).Failed?
  }

  /** The member decodes and no partition of its topics fails to read. */
  predicate MemberClean(b: Broker, m: Member) {
    && m.assignment.Success?
    && forall t :: t in AssignedTopics(m) ==> PartitionsClean(b, t, AssignedTopics(m)[t], 0)
  }

  lemma {:induction false} PartitionsErrorNone(b: Broker, topic: Topic, ps: seq<Partition>, k: nat)
    requires k <= |ps|
    ensures PartitionsError(b, topic, ps, k).None? <==> PartitionsClean(b, topic, ps, k)
    decreases |ps| - k
  {
    if k < |ps| {
      PartitionsErrorNone(b, topic, ps, k + 1);
    }
  }

  lemma MemberErrorsEmpty(b: Broker, m: Member)
    ensures MemberErrors(b, m) == {} <==> MemberClean(b, m)
  {
    var topics := AssignedTopics(m);
    forall t | t in topics ensures TopicError(b, topics, t).None? <==> PartitionsClean(b, t, topics[t], 0) {
      PartitionsErrorNone(b, t, topics[t], 0);
    }
    forall t | m.assignment.Success? && t in topics && TopicError(b, topics, t).Some?
      ensures TopicError(b, topics, t).value in MemberErrors(b, m)
    {
    }
  }

  lemma {:induction false} FirstErrorsEmpty(b: Broker, ds: seq<GroupDescription>, i: nat)
    requires i <= |ds|
    ensures FirstErrors(b, ds, i) == {} <==> forall j :: i <= j < |ds| ==> DescriptionErrors(b, ds[j]) == {}
    decreases |ds| - i
  {
    if i < |ds| {
      FirstErrorsEmpty(b, ds, i + 1);
    }
  }

  /** calculateGroupLag succeeds exactly when the group is described, its offset manager opens,
      every member's assignment decodes and every partition of every assigned topic is read
      without error. */
  lemma GroupSucceedsIff(b: Broker)
    ensures GroupErrors(b) == {} <==>
      && b.describe.Success?
      && b.openOffsetManager.None?
      && forall i, id :: 0 <= i < |b.describe.value| && id in b.describe.value[i].members ==>
           MemberClean(b, b.describe.value[i].members[id])
  {
    if b.describe.Success? && b.openOffsetManager.None? {
      var ds := b.describe.value;
      FirstErrorsEmpty(b, ds, 0);
      forall i, id | 0 <= i < |ds| && id in ds[i].members
        ensures MemberErrors(b, ds[i].members[id]) == {} <==> MemberClean(b, ds[i].members[id])
      {
        MemberErrorsEmpty(b, ds[i].members[id]);
      }
      forall i | 0 <= i < |ds| && DescriptionErrors(b, ds[i]) != {}
        ensures exists id :: id in ds[i].members && MemberErrors(b, ds[i].members[id]) != {}
      {
        var e :| e in DescriptionErrors(b, ds[i]);
      }
      forall i, id | 0 <= i < |ds| && id in ds[i].members && MemberErrors(b, ds[i].members[id]) != {}
        ensures DescriptionErrors(b, ds[i]) != {}
      {
        var e :| e in MemberErrors(b, ds[i].members[id]);
        assert e in DescriptionErrors(b, ds[i]);
      }
    }
  }

  // ---------------------------------------------------------------- the walk over one topic

  /** `lags` after the first n partitions of `topic` are added to it: the entry gets the
      wrapped sum of their lags, and is neither created nor changed when no partition adds one. */
  ghost function Tally(b: Broker, lags: map<Topic, int64>, topic: Topic, partitions: seq<Partition>, n: nat): map<Topic, int64>
    requires n <= |partitions|
  {
    if PartitionsTouch(b, topic, partitions, n) then Credit(lags, topic, PartitionsSum(b, topic, partitions, n)) else lags
  }

  /** Visiting one more partition that does not fail is one more AddReading. */
  lemma TallyStep(b: Broker, lags: map<Topic, int64>, topic: Topic, partitions: seq<Partition>, k: nat)
    requires k < |partitions| && !Read(b, topic, partitions[k]).Failed?
    ensures Tally(b, lags, topic, partitions, k + 1) == AddReading(Tally(b, lags, topic, partitions, k), topic, Read(b, topic, partitions[k]))
  {
    if Read(b, topic, partitions[k]).Counted? {
      TallyStepCounted(b, lags, topic, partitions, k);
    } else {
      assert PartitionsSum(b, topic, partitions, k + 1) == PartitionsSum(b, topic, partitions, k);
      assert PartitionsTouch(b, topic, partitions, k + 1) == PartitionsTouch(b, topic, partitions, k);
    }
  }

  lemma TallyStepCounted(b: Broker, lags: map<Topic, int64>, topic: Topic, partitions: seq<Partition>, k: nat)
    requires k < |partitions| && Read(b, topic, partitions[k]).Counted?
    ensures Tally(b, lags, topic, partitions, k + 1) == AddReading(Tally(b, lags, topic, partitions, k), topic, Read(b, topic, partitions[k]))
  {
    var g, sum, exact := Get0(lags, topic), PartitionsSum(b, topic, partitions, k), Amount(Read(b, topic, partitions[k]));
    var total := Wrap(g + sum + exact);
    CountedLag(Read(b, topic, partitions[k]));
    assert PartitionsTouch(b, topic, partitions, k + 1);
    assert Tally(b, lags, topic, partitions, k + 1) == Credit(lags, topic, sum + exact);
    TallyEntry(b, lags, topic, partitions, k);
    TallyOverwrite(b, lags, topic, partitions, k, total);
    WrapAddWrapped(g + sum, exact);
  }

  /** The int64 lag Go adds for a counted reading is the wrap of its exact lag. */
  lemma CountedLag(r: Reading)
    requires r.Counted?
    ensures PartitionLag(r.newest, r.committed) == Wrap(Amount(r))
  {
  }

  /** The topic's entry after n partitions holds their wrapped sum on top of the entry before. */
  lemma TallyEntry(b: Broker, lags: map<Topic, int64>, topic: Topic, partitions: seq<Partition>, n: nat)
    requires n <= |partitions|
    ensures Get0(Tally(b, lags, topic, partitions, n), topic) == Wrap(Get0(lags, topic) + PartitionsSum(b, topic, partitions, n))
  {
  }

  /** The walk over one topic changes that topic's entry only. */
  lemma TallyOverwrite(b: Broker, lags: map<Topic, int64>, topic: Topic, partitions: seq<Partition>, n: nat, v: int64)
    requires n <= |partitions|
    ensures Tally(b, lags, topic, partitions, n)[topic := v] == lags[topic := v]
  {
  }

  /** One `+=` of the lag a reading adds, as Go does it on int64. */
  ghost function AddReading(lags: map<Topic, int64>, topic: Topic, r: Reading): map<Topic, int64> {
    if r.Counted? then lags[topic := Wrap(Get0(lags, topic) + PartitionLag(r.newest, r.committed))] else lags
  }

  /** One iteration of the loop over a topic's partitions (main.go:172-199): read the newest
      offset, open the partition offset manager, skip a nil one, substitute an unset committed
      offset and add the lag to the topic's entry. */
  method VisitPartition(b: Broker, lags: map<Topic, int64>, topic: Topic, partition: Partition)
    returns (r: Result<map<Topic, int64>, Error>)
    ensures r.Failure? <==> Read(b, topic, partition).Failed?
    ensures r.Failure? ==> r.error == Read(b, topic, partition).error
    ensures r.Success? ==> r.value == AddReading(lags, topic, Read(b, topic, partition))
  {
    var newest := b.newest(topic, partition);
    if newest.Failure? {
      return Failure(newest.error);
    }
    var manager := b.managePartition(topic, partition);
    if manager.Failure? {
      return Failure(manager.error);
    }
    if manager.value.None? {
      return Success(lags);
    }
    var consumerOffset := manager.value.value;
    if consumerOffset == Unset {
      consumerOffset := newest.value;
    }
    var lag := Sub(newest.value, consumerOffset);
    var entry := Add(Get0(lags, topic), lag);
    return Success(lags[topic := entry]);
  }

  /** The loop over the partitions of one topic (main.go:171-200), in slice order: it stops at
      the first failing partition, and otherwise leaves the topic's entry holding the wrapped sum
      of the lags. */
  method AddPartitions(b: Broker, lags: map<Topic, int64>, topic: Topic, partitions: seq<Partition>)
    returns (r: Result<map<Topic, int64>, Error>)
    ensures r.Failure? <==> PartitionsError(b, topic, partitions, 0).Some?
    ensures r.Failure? ==> r.error == PartitionsError(b, topic, partitions, 0).value
    ensures r.Success? ==> r.value == Tally(b, lags, topic, partitions, |partitions|)
  {
    var partitionsLag := lags;
    var k := 0;
    while k < |partitions|
      invariant 0 <= k <= |partitions|
      invariant PartitionsError(b, topic, partitions, 0) == PartitionsError(b, topic, partitions, k)
      invariant partitionsLag == Tally(b, lags, topic, partitions, k)
    {
      var visited := VisitPartition(b, partitionsLag, topic, partitions[k]);
      if visited.Failure? {
        return Failure(visited.error);
      }
      TallyStep(b, lags, topic, partitions, k);
      partitionsLag := visited.value;
      k := k + 1;
    }
    return Success(partitionsLag);
  }

  /** Three partitions of "orders": one 10 behind, one never committed (adds 0, but creates the
      entry) and one whose committed offset is 5 past the newest (adds -5). */
  lemma ExampleTopicLag()
    ensures var b := Broker(Success([]), None,
                            (t: Topic, p: Partition) => Success(if p == 0 then 100 else if p == 1 then 50 else 40),
                            (t: Topic, p: Partition) => Success(Some(if p == 0 then 90 else if p == 1 then Unset else 45)));
      Tally(b, map[], "orders", [0, 1, 2], 3) == map["orders" := 5]
  {
    var b := Broker(Success([]), None,
                    (t: Topic, p: Partition) => Success(if p == 0 then 100 else if p == 1 then 50 else 40),
                    (t: Topic, p: Partition) => Success(Some(if p == 0 then 90 else if p == 1 then Unset else 45)));
    assert Read(b, "orders", 0) == Counted(100, 90);
    assert Read(b, "orders", 1) == Counted(50, Unset);
    assert Read(b, "orders", 2) == Counted(40, 45);
    assert PartitionsSum(b, "orders", [0, 1, 2], 3) == 5;
  }

  // ---------------------------------------------------------------- the walk over one member

  /** The lag the topics in `done` add to `topic`: its partitions' sum if it is one of them. */
  function DoneSum(b: Broker, topics: map<Topic, seq<Partition>>, done: set<Topic>, topic: Topic): int
    requires done <= topics.Keys
  {
    if topic in done then PartitionsSum(b, topic, topics[topic], |topics[topic]|) else 0
  }

  /** The entry of topic t in `current` is that in `lags` with the lags of the topics in `done`
      added. */
  ghost predicate TopicAddedAt(b: Broker, lags: map<Topic, int64>, current: map<Topic, int64>,
                               topics: map<Topic, seq<Partition>>, done: set<Topic>, t: Topic)
    requires done <= topics.Keys
  {
    && (t in current <==> t in lags || (t in done && PartitionsTouch(b, t, topics[t], |topics[t]|)))
    && (t in current ==> current[t] == Wrap(Get0(lags, t) + DoneSum(b, topics, done, t)))
  }

  /** `current` is `lags` with every lag of the topics in `done` added. */
  ghost predicate TopicsAdded(b: Broker, lags: map<Topic, int64>, current: map<Topic, int64>,
                              topics: map<Topic, seq<Partition>>, done: set<Topic>)
    requires done <= topics.Keys
  {
    forall t :: TopicAddedAt(b, lags, current, topics, done, t)
  }

  /** The walk over one member (main.go:162-201): decode its assignment, skip it when the
      assignment or its Topics is nil, otherwise visit its topics in map order. */
  method AddMember(b: Broker, lags: map<Topic, int64>, member: Member)
    returns (r: Result<map<Topic, int64>, Error>)
    ensures r.Failure? <==> MemberErrors(b, member) != {}
    ensures r.Failure? ==> r.error in MemberErrors(b, member)
    ensures r.Success? ==> MemberAdded(b, lags, r.value, member)
  {
    if member.assignment.Failure? {
      return Failure(member.assignment.error);
    }
    var assignment := member.assignment.value;
    if assignment.None? || assignment.value.topics.None? {
      NothingAssigned(b, lags, member);
      return Success(lags);
    }
    var topics := assignment.value.topics.value;
    var partitionsLag := lags;
    var pending := topics.Keys;
    ghost var done: set<Topic> := {};
    while pending != {}
      invariant pending <= topics.Keys && done == topics.Keys - pending
      invariant forall t :: t in done ==> TopicError(b, topics, t).None?
      invariant TopicsAdded(b, lags, partitionsLag, topics, done)
      decreases pending
    {
      var topic :| topic in pending;
      pending := pending - {topic};
      var added := AddPartitions(b, partitionsLag, topic, topics[topic]);
      if added.Failure? {
        TopicErrorIsMemberError(b, member, topic);
        return Failure(added.error);
      }
      TopicsAddedStep(b, lags, partitionsLag, added.value, topics, done, topic);
      partitionsLag := added.value;
      done := done + {topic};
    }
    AllTopicsAdded(b, lags, partitionsLag, member, done);
    return Success(partitionsLag);
  }

  lemma NothingAssigned(b: Broker, lags: map<Topic, int64>, m: Member)
    requires m.assignment.Success? && (m.assignment.value.None? || m.assignment.value.value.topics.None?)
    ensures MemberErrors(b, m) == {} && MemberAdded(b, lags, lags, m)
  {
    assert AssignedTopics(m) == map[];
    forall t ensures AddedAt(b, lags, lags, m, t) {
    }
  }

  lemma TopicErrorIsMemberError(b: Broker, m: Member, topic: Topic)
    requires m.assignment.Success? && topic in AssignedTopics(m)
    requires TopicError(b, AssignedTopics(m), topic).Some?
    ensures TopicError(b, AssignedTopics(m), topic).value in MemberErrors(b, m)
  {
  }

  lemma AllTopicsAdded(b: Broker, lags: map<Topic, int64>, current: map<Topic, int64>, m: Member, done: set<Topic>)
    requires m.assignment.Success? && done == AssignedTopics(m).Keys
    requires forall t :: t in done ==> TopicError(b, AssignedTopics(m), t).None?
    requires TopicsAdded(b, lags, current, AssignedTopics(m), done)
    ensures MemberErrors(b, m) == {} && MemberAdded(b, lags, current, m)
  {
    forall t ensures AddedAt(b, lags, current, m, t) {
      assert TopicAddedAt(b, lags, current, AssignedTopics(m), done, t);
    }
  }

  lemma TopicsAddedStep(b: Broker, lags: map<Topic, int64>, current: map<Topic, int64>, next: map<Topic, int64>,
                        topics: map<Topic, seq<Partition>>, done: set<Topic>, topic: Topic)
    requires done <= topics.Keys && topic in topics && topic !in done
    requires TopicsAdded(b, lags, current, topics, done)
    requires next == Tally(b, current, topic, topics[topic], |topics[topic]|)
    ensures TopicsAdded(b, lags, next, topics, done + {topic})
  {
    forall t ensures TopicAddedAt(b, lags, next, topics, done + {topic}, t) {
      if t == topic {
        TopicsAddedStepHere(b, lags, current, next, topics, done, topic);
      } else {
        TopicsAddedStepElsewhere(b, lags, current, next, topics, done, topic, t);
      }
    }
  }

  /** The entry of the topic just visited gets its partitions' sum. */
  lemma TopicsAddedStepHere(b: Broker, lags: map<Topic, int64>, current: map<Topic, int64>, next: map<Topic, int64>,
                            topics: map<Topic, seq<Partition>>, done: set<Topic>, topic: Topic)
    requires done <= topics.Keys && topic in topics && topic !in done
    requires TopicAddedAt(b, lags, current, topics, done, topic)
    requires next == Tally(b, current, topic, topics[topic], |topics[topic]|)
    ensures TopicAddedAt(b, lags, next, topics, done + {topic}, topic)
  {
    assert DoneSum(b, topics, done, topic) == 0;
    assert topic in current <==> topic in lags;
    assert Get0(current, topic) == Get0(lags, topic);
  }

  /** Every other entry is left as it was. */
  lemma TopicsAddedStepElsewhere(b: Broker, lags: map<Topic, int64>, current: map<Topic, int64>, next: map<Topic, int64>,
                                 topics: map<Topic, seq<Partition>>, done: set<Topic>, topic: Topic, t: Topic)
    requires done <= topics.Keys && topic in topics && topic !in done && t != topic
    requires TopicAddedAt(b, lags, current, topics, done, t)
    requires next == Tally(b, current, topic, topics[topic], |topics[topic]|)
    ensures TopicAddedAt(b, lags, next, topics, done + {topic}, t)
  {
    assert t in next <==> t in current;
    assert t in next ==> next[t] == current[t];
    assert DoneSum(b, topics, done + {topic}, t) == DoneSum(b, topics, done, t);
  }

  // ---------------------------------------------------------------- the walk over the group

  /** The entry of topic t in `lags` holds the lag the first n descriptions add to it. */
  ghost predicate DescriptionsTalliedAt(b: Broker, ds: seq<GroupDescription>, n: nat, lags: map<Topic, int64>, t: Topic)
    requires n <= |ds|
  {
    && (t in lags <==> DescriptionsTouch(b, ds, n, t))
    && (t in lags ==> lags[t] == Wrap(DescriptionsSum(b, ds, n, t)))
  }

  /** `lags` holds the lag of every topic the first n descriptions add to. */
  ghost predicate DescriptionsTallied(b: Broker, ds: seq<GroupDescription>, n: nat, lags: map<Topic, int64>)
    requires n <= |ds|
  {
    forall t :: DescriptionsTalliedAt(b, ds, n, lags, t)
  }

  /** The entry of topic t in `lags` holds the lag the first i descriptions and the members
      `visited` of description i add to it. */
  ghost predicate MembersTalliedAt(b: Broker, ds: seq<GroupDescription>, i: nat, visited: set<MemberId>,
                                   lags: map<Topic, int64>, t: Topic)
    requires i < |ds| && visited <= ds[i].members.Keys
  {
    && (t in lags <==> DescriptionsTouch(b, ds, i, t) || MembersTouch(b, ds[i].members, visited, t))
    && (t in lags ==> lags[t] == Wrap(DescriptionsSum(b, ds, i, t) + MembersSum(b, ds[i].members, visited, t)))
  }

  /** `lags` holds the lag of every topic the first i descriptions and the members `visited` of
      description i add to. */
  ghost predicate MembersTallied(b: Broker, ds: seq<GroupDescription>, i: nat, visited: set<MemberId>, lags: map<Topic, int64>)
    requires i < |ds| && visited <= ds[i].members.Keys
  {
    forall t :: MembersTalliedAt(b, ds, i, visited, lags, t)
  }

  /** calculateGroupLag (main.go:145-210): describe the group, open its offset manager, walk
      every member of every description (members in map order), and once the walk is done emit
      one metric line per topic of the accumulated map (topics in map order). The lines are
      returned in the order Go pushes them, and `order` lists their topics in that order. */
  method CalculateGroupLag(b: Broker, namespace: string, group: string)
    returns (r: Result<seq<string>, Error>, order: seq<Topic>)
    ensures GroupOutcome(b, namespace, group, r, order)
  {
    var partitionsLag: map<Topic, int64> := map[];
    if b.describe.Failure? {
      return Failure(b.describe.error), [];
    }
    var descriptions := b.describe.value;
    if b.openOffsetManager.Some? {
      return Failure(b.openOffsetManager.value), [];
    }
    var i := 0;
    while i < |descriptions|
      invariant 0 <= i <= |descriptions|
      invariant FirstErrors(b, descriptions, 0) == FirstErrors(b, descriptions, i)
      invariant DescriptionsTallied(b, descriptions, i, partitionsLag)
    {
      var added := AddDescription(b, descriptions, i, partitionsLag);
      if added.Failure? {
        return Failure(added.error), [];
      }
      partitionsLag := added.value;
      i := i + 1;
    }
    GroupDone(b, partitionsLag);
    var lines;
    lines, order := EmitLines(namespace, group, partitionsLag);
    return Success(lines), order;
  }

  /** The walk over the members of description i (main.go:160-203), in map order: it fails
      with an error of the description, or adds every member's lags. */
  method AddDescription(b: Broker, ds: seq<GroupDescription>, i: nat, lags: map<Topic, int64>)
    returns (r: Result<map<Topic, int64>, Error>)
    requires i < |ds| && DescriptionsTallied(b, ds, i, lags)
    ensures r.Failure? ==> r.error in DescriptionErrors(b, ds[i])
    ensures r.Success? ==> DescriptionErrors(b, ds[i]) == {} && DescriptionsTallied(b, ds, i + 1, r.value)
  {
    var members := ds[i].members;
    var partitionsLag := lags;
    var pending := members.Keys;
    ghost var visited: set<MemberId> := {};
    MembersTalliedStart(b, ds, i, lags);
    while pending != {}
      invariant pending <= members.Keys && visited == members.Keys - pending
      invariant forall id :: id in visited ==> MemberErrors(b, members[id]) == {}
      invariant MembersTallied(b, ds, i, visited, partitionsLag)
      decreases pending
    {
      var id :| id in pending;
      pending := pending - {id};
      var added := AddMember(b, partitionsLag, members[id]);
      if added.Failure? {
        assert added.error in DescriptionErrors(b, ds[i]);
        return Failure(added.error);
      }
      MembersTalliedStep(b, ds, i, visited, id, partitionsLag, added.value);
      partitionsLag := added.value;
      visited := visited + {id};
    }
    assert visited == members.Keys;
    DescriptionDone(b, ds, i + 1, members, partitionsLag);
    return Success(partitionsLag);
  }

  /** Before any member of description i is visited, the map tallies the first i descriptions. */
  lemma MembersTalliedStart(b: Broker, ds: seq<GroupDescription>, i: nat, lags: map<Topic, int64>)
    requires i < |ds| && DescriptionsTallied(b, ds, i, lags)
    ensures MembersTallied(b, ds, i, {}, lags)
  {
    forall t ensures MembersTalliedAt(b, ds, i, {}, lags, t) {
      assert DescriptionsTalliedAt(b, ds, i, lags, t);
    }
  }

  /** Adding member `id`'s lags to a map that tallies the members `visited` tallies `visited`
      and `id`. */
  lemma MembersTalliedStep(b: Broker, ds: seq<GroupDescription>, i: nat, visited: set<MemberId>, id: MemberId,
                           lags: map<Topic, int64>, next: map<Topic, int64>)
    requires i < |ds| && visited <= ds[i].members.Keys && id in ds[i].members && id !in visited
    requires MembersTallied(b, ds, i, visited, lags)
    requires MemberAdded(b, lags, next, ds[i].members[id])
    ensures MembersTallied(b, ds, i, visited + {id}, next)
  {
    forall t ensures MembersTalliedAt(b, ds, i, visited + {id}, next, t) {
      MembersTalliedStepAt(b, ds, i, visited, id, lags, next, t);
    }
  }

  lemma MembersTalliedStepAt(b: Broker, ds: seq<GroupDescription>, i: nat, visited: set<MemberId>, id: MemberId,
                             lags: map<Topic, int64>, next: map<Topic, int64>, t: Topic)
    requires i < |ds| && visited <= ds[i].members.Keys && id in ds[i].members && id !in visited
    requires MembersTalliedAt(b, ds, i, visited, lags, t)
    requires AddedAt(b, lags, next, ds[i].members[id], t)
    ensures MembersTalliedAt(b, ds, i, visited + {id}, next, t)
  {
    var members := ds[i].members;
    MembersTouchAdd(b, members, visited, id, t);
    MembersSumRemove(b, members, visited + {id}, id, t);
    assert visited + {id} - {id} == visited;
    if t in next {
      EntryAdd(lags, next, t, DescriptionsSum(b, ds, i, t) + MembersSum(b, members, visited, t), MemberSum(b, members[id], t));
    }
  }

  /** Adding `added` to an entry that holds the wrapped `before` (or is missing, with `before`
      zero) leaves the wrapped `before + added`. */
  lemma EntryAdd(lags: map<Topic, int64>, next: map<Topic, int64>, t: Topic, before: int, added: int)
    requires t in next && next[t] == Wrap(Get0(lags, t) + added)
    requires t in lags ==> lags[t] == Wrap(before)
    requires t !in lags ==> before == 0
    ensures next[t] == Wrap(before + added)
  {
    if t in lags {
      WrapAdd(before, added);
    }
  }

  lemma MembersTouchAdd(b: Broker, members: map<MemberId, Member>, visited: set<MemberId>, id: MemberId, t: Topic)
    requires visited <= members.Keys && id in members
    ensures MembersTouch(b, members, visited + {id}, t) <==> MembersTouch(b, members, visited, t) || MemberTouches(b, members[id], t)
  {
    if MembersTouch(b, members, visited + {id}, t) {
      var w :| w in visited + {id} && MemberTouches(b, members[w], t);
    }
    if MembersTouch(b, members, visited, t) {
      var w :| w in visited && MemberTouches(b, members[w], t);
      assert w in visited + {id};
    }
  }

  /** Once every member of description n - 1 is visited, the first n descriptions are tallied
      and description n - 1 raised no error. */
  lemma DescriptionDone(b: Broker, ds: seq<GroupDescription>, n: nat, members: map<MemberId, Member>, lags: map<Topic, int64>)
    requires 0 < n <= |ds| && members == ds[n - 1].members && MembersTallied(b, ds, n - 1, members.Keys, lags)
    requires forall id :: id in members ==> MemberErrors(b, members[id]) == {}
    ensures DescriptionsTallied(b, ds, n, lags) && DescriptionErrors(b, ds[n - 1]) == {}
  {
    forall t ensures DescriptionsTalliedAt(b, ds, n, lags, t) {
      assert MembersTalliedAt(b, ds, n - 1, members.Keys, lags, t);
    }
  }

  /** Every topic some description adds to is an assigned topic. */
  lemma {:induction false} TouchedIsAssigned(b: Broker, ds: seq<GroupDescription>, n: nat, t: Topic)
    requires n <= |ds| && DescriptionsTouch(b, ds, n, t)
    ensures t in AssignedTopicsOf(ds)
  {
    if DescriptionsTouch(b, ds, n - 1, t) {
      TouchedIsAssigned(b, ds, n - 1, t);
    } else {
      var members := ds[n - 1].members;
      var id :| id in members.Keys && MemberTouches(b, members[id], t);
      assert t in AssignedTopics(ds[n - 1].members[id]);
    }
  }

  /** After every description, the accumulated map is the group's lag and no error was met. */
  lemma GroupDone(b: Broker, lags: map<Topic, int64>)
    requires b.describe.Success? && b.openOffsetManager.None?
    requires FirstErrors(b, b.describe.value, 0) == FirstErrors(b, b.describe.value, |b.describe.value|)
    requires DescriptionsTallied(b, b.describe.value, |b.describe.value|, lags)
    ensures GroupErrors(b) == {} && lags == GroupLags(b)
  {
    var ds := b.describe.value;
    forall t ensures (t in lags <==> t in GroupLags(b)) && (t in lags ==> lags[t] == GroupLags(b)[t]) {
      assert DescriptionsTalliedAt(b, ds, |ds|, lags, t);
      if t in lags {
        TouchedIsAssigned(b, ds, |ds|, t);
      }
    }
  }

  /** The emission loop (main.go:204-208): one metric line per entry of the map, in map order;
      `order` lists the topics of the lines. */
  method EmitLines(namespace: string, group: string, lags: map<Topic, int64>)
    returns (lines: seq<string>, order: seq<Topic>)
    ensures Emits(namespace, group, lags, lines, order)
  {
    lines, order := [], [];
    var pending := lags.Keys;
    while pending != {}
      invariant pending <= lags.Keys
      invariant forall t :: t in order <==> t in lags && t !in pending
      invariant forall i, j :: 0 <= i < j < |order| ==> order[i] != order[j]
      invariant |lines| == |order|
      invariant forall i :: 0 <= i < |order| ==> order[i] in lags && lines[i] == MetricLine(namespace, group, order[i], lags[order[i]])
      decreases pending
    {
      var topic :| topic in pending;
      pending := pending - {topic};
      var metric := MetricLine(namespace, group, topic, lags[topic]);
      lines, order := lines + [metric], order + [topic];
    }
  }
}
