/**
 * The lockstep scene's message cache: a priority queue of received
 * messages in which the entry with the smallest (flag, timestamp) is on
 * top. The queue is modelled by its contents as a sequence; which of
 * several entries with equal keys comes out first is left to TopIndex.
 */
module NetCaching {
  import opened Wire

  const FireInputFlag: Uint8 := 1
  const StateSyncFlag: Uint8 := 2
  const ResetFlag: Uint8 := 3
  const RocketFlag: Uint8 := 4

  /** A message as cached: its tick, kind, sender, body and the local tick it arrived on. */
  datatype NetData = NetData(timestamp: Uint64, flag: Uint8, sourceId: string, data: seq<Byte>, receivedBy: Uint64)

  /**
   * The queue's comparator as written: true when d1 belongs below d2,
   * i.e. d1's (flag, timestamp) is at least d2's. It uses >=, so it also
   * holds between an entry and itself.
   */
  predicate CompareTimestamp(d1: NetData, d2: NetData)
  {
    if d1.flag != d2.flag then d1.flag >= d2.flag else d1.timestamp >= d2.timestamp
  }

  /** As written the comparator is reflexive, so it is not the strict weak ordering a priority queue needs. */
  lemma CompareTimestampReflexive(d: NetData)
    ensures CompareTimestamp(d, d)
  {
  }

  /** The comparator with > instead of >=. */
  predicate StrictCompare(d1: NetData, d2: NetData)
  {
    if d1.flag != d2.flag then d1.flag > d2.flag else d1.timestamp > d2.timestamp
  }

  /**
   * The corrected comparator is a strict weak ordering (irreflexive,
   * transitive, and two entries are unordered exactly when their keys are
   * equal), and it agrees with the written one on entries with different keys.
   */
  lemma StrictCompareIsStrictWeakOrder(a: NetData, b: NetData, c: NetData)
    ensures !StrictCompare(a, a)
    ensures StrictCompare(a, b) && StrictCompare(b, c) ==> StrictCompare(a, c)
    ensures !StrictCompare(a, b) && !StrictCompare(b, a) <==> a.flag == b.flag && a.timestamp == b.timestamp
    ensures a.flag != b.flag || a.timestamp != b.timestamp ==> (StrictCompare(a, b) <==> CompareTimestamp(a, b))
  {
  }

  /** d may come out before e: the corrected comparator does not put d below e. */
  predicate KeyLe(d: NetData, e: NetData)
  {
    !StrictCompare(d, e)
  }

  /** KeyLe is the lexicographic order on (flag, timestamp), and the written comparator is its reverse. */
  lemma KeyLeIsLexicographic(d: NetData, e: NetData)
    ensures KeyLe(d, e) <==> d.flag < e.flag || (d.flag == e.flag && d.timestamp <= e.timestamp)
    ensures CompareTimestamp(d, e) <==> KeyLe(e, d)
  {
  }

  /** The position of the entry the queue hands out first: one whose key is minimal. */
  function TopIndex(s: seq<NetData>): (i: nat)
    requires s != []
    ensures i < |s|
    ensures forall j | 0 <= j < |s| :: KeyLe(s[i], s[j])
  {
    if |s| == 1 then 0
    else
      var k := TopIndex(s[1..]);
      if KeyLe(s[0], s[1..][k]) then 0 else k + 1
  }

  /** s without its i-th entry. */
  function Remove(s: seq<NetData>, i: nat): (r: seq<NetData>)
    requires i < |s|
    ensures |r| == |s| - 1
    ensures multiset(r) + multiset{s[i]} == multiset(s)
  {
    assert s == s[..i] + [s[i]] + s[i + 1..];
    s[..i] + s[i + 1..]
  }

  /** Some entry has a timestamp of at least t. */
  predicate Reaches(s: seq<NetData>, t: Uint64)
  {
    exists j | 0 <= j < |s| :: s[j].timestamp >= t
  }

  /** Removing an entry older than t keeps an entry that reaches t. */
  lemma RemoveKeepsReach(s: seq<NetData>, i: nat, t: Uint64)
    requires i < |s| && s[i].timestamp < t && Reaches(s, t)
    ensures Reaches(Remove(s, i), t)
  {
    var j :| 0 <= j < |s| && s[j].timestamp >= t;
    if j < i {
      assert Remove(s, i)[j] == s[j];
    } else {
      assert Remove(s, i)[j - 1] == s[j];
    }
  }

  /** The queue after skipToTime(t): tops popped while their timestamp is below t. */
  function Skipped(s: seq<NetData>, t: Uint64): (r: seq<NetData>)
    requires Reaches(s, t)
    ensures r != [] && r[TopIndex(r)].timestamp >= t
    ensures multiset(r) <= multiset(s)
    ensures forall d | d in multiset(s) - multiset(r) :: d.timestamp < t
    decreases |s|
  {
    var i := TopIndex(s);
    if s[i].timestamp >= t then s
    else
      RemoveKeepsReach(s, i, t);
      Skipped(Remove(s, i), t)
  }

  /** What clear does to the contents as written: it only queries emptiness. */
  function AfterClear(s: seq<NetData>): seq<NetData>
  {
    s
  }

  /** So a queue holding a message still holds it after clear. */
  lemma ClearKeepsPending(d: NetData)
    ensures AfterClear([d]) != []
  {
  }

  class NetCache {
    var entries: seq<NetData>

    constructor ()
      ensures entries == []
    {
      entries := [];
    }

    method IsEmpty() returns (b: bool)
      ensures b <==> entries == []
    {
      b := entries == [];
    }

    /** The entry that comes out next; the queue is unchanged. */
    method Peek() returns (d: NetData)
      requires entries != []
      ensures d == entries[TopIndex(entries)]
      ensures forall e | e in entries :: KeyLe(d, e)
    {
      d := entries[TopIndex(entries)];
    }

    /** Removes and returns the entry on top. */
    method Pop() returns (d: NetData)
      requires entries != []
      modifies this
      ensures d == old(entries[TopIndex(entries)])
      ensures forall e | e in old(entries) :: KeyLe(d, e)
      ensures entries == Remove(old(entries), TopIndex(old(entries)))
      ensures multiset(entries) + multiset{d} == multiset(old(entries))
    {
      var i := TopIndex(entries);
      d := entries[i];
      entries := Remove(entries, i);
    }

    /** Adds data, stamped with the tick it was received on. */
    method Push(data: NetData, received: Uint64)
      modifies this
      ensures entries == old(entries) + [data.(receivedBy := received)]
      ensures multiset(entries) == multiset(old(entries)) + multiset{data.(receivedBy := received)}
    {
      entries := entries + [data.(receivedBy := received)];
    }

    /** As written: it only asks whether the queue is empty. */
    method Clear()
      ensures entries == AfterClear(old(entries))
    {
      var isEmpty := entries == [];
    }

    /** Pops until the entry on top has a timestamp of at least t. */
    method SkipToTime(t: Uint64)
      requires Reaches(entries, t)
      modifies this
      ensures entries == Skipped(old(entries), t)
    {
      while entries[TopIndex(entries)].timestamp < t
        invariant Reaches(entries, t)
        invariant Skipped(entries, t) == Skipped(old(entries), t)
        decreases |entries|
      {
        var i := TopIndex(entries);
        RemoveKeepsReach(entries, i, t);
        entries := Remove(entries, i);
      }
    }
  }
}
