/**
 The call log in its two forms (cmd/contact-centre/calllog.go, calllog_redis.go): a ring
 buffer, and a list kept by a Redis-compatible server. Both answer from the newest end
 of the history of everything appended.
 */
module CallLog {
  datatype Outcome = Answered | Abandoned | Failed

  datatype Entry = Entry(
    leg: string, caller: string, callee: string, startedAt: int, answeredAt: int, endedAt: int,
    outcome: Outcome, agentID: string, agentName: string, transferredFrom: string)

  const DEFAULT_CAPACITY := 200

  function Reversed<T>(s: seq<T>): (r: seq<T>)
    ensures |r| == |s|
    ensures forall i | 0 <= i < |s| :: r[i] == s[|s| - 1 - i]
  {
    if s == [] then [] else [s[|s| - 1]] + Reversed(s[..|s| - 1])
  }

  function Min(a: nat, b: nat): nat {
    if a < b then a else b
  }

  /** How many entries a listing has: as many as there are, as are kept, and as were asked for, if a limit was given. */
  function Listed(size: nat, cap: nat, limit: int): nat {
    var kept := Min(size, cap);
    if limit > 0 then Min(kept, limit) else kept
  }

  /** What a store answers for what was ever appended: the newest entries, newest first. */
  function Listing(history: seq<Entry>, cap: nat, limit: int): (r: seq<Entry>)
    ensures |r| == Listed(|history|, cap, limit)
    ensures forall i | 0 <= i < |r| :: r[i] == history[|history| - 1 - i]
  {
    Reversed(history[|history| - Listed(|history|, cap, limit)..])
  }

  /** Where the i-th newest entry of a ring stands, i counted from 1. */
  function Slot(head: nat, cap: nat, i: nat): (slot: int)
    requires head < cap && 1 <= i <= cap
    ensures 0 <= slot < cap
  {
    if i <= head then head - i else head - i + cap
  }

  class MemStore {
    const buf: array<Entry>
    const cap: nat
    var head: nat
    var count: nat
    ghost var history: seq<Entry>

    ghost predicate Valid()
      reads this, buf
    {
      && 0 < cap == buf.Length && head < cap
      && count == Min(|history|, cap)
      && forall i: nat | 1 <= i <= count :: buf[Slot(head, cap, i)] == history[|history| - i]
    }

    constructor (capacity: int)
      ensures Valid() && fresh(buf) && history == []
      ensures cap == if capacity <= 0 then DEFAULT_CAPACITY else capacity
    {
      var size := if capacity <= 0 then DEFAULT_CAPACITY else capacity;
      buf := new Entry[size];
      cap := size;
      head, count, history := 0, 0, [];
    }

    method Append(e: Entry)
      requires Valid()
      modifies this, buf
      ensures Valid() && history == old(history) + [e]
    {
      buf[head] := e;
      head := if head + 1 == cap then 0 else head + 1;
      if count < cap {
        count := count + 1;
      }
      history := history + [e];
      forall i: nat | 1 <= i <= count
        ensures buf[Slot(head, cap, i)] == history[|history| - i]
      {
        assert Slot(head, cap, i) == if i == 1 then old(head) else Slot(old(head), cap, i - 1);
      }
    }

    method List(limit: int) returns (out: seq<Entry>)
      requires Valid()
      ensures out == Listing(history, cap, limit)
    {
      var n := count;
      if limit > 0 && limit < n {
        n := limit;
      }
      out := [];
      var idx := head - 1;
      if idx < 0 {
        idx := idx + cap;
      }
      for i := 0 to n
        invariant |out| == i && 0 <= idx < cap
        invariant i < cap ==> idx == Slot(head, cap, i + 1)
        invariant forall k | 0 <= k < i :: out[k] == history[|history| - 1 - k]
      {
        out := out + [buf[idx]];
        idx := idx - 1;
        if idx < 0 {
          idx := idx + cap;
        }
      }
    }
  }

  // ---------------------------------------------------------------------------
  // The list of a Redis-compatible server
  // ---------------------------------------------------------------------------

  /** An index into a list of `size`, from the end if it is negative, not before the beginning. */
  function FromEnd(size: nat, index: int): nat {
    if index >= 0 then index else if size + index >= 0 then size + index else 0
  }

  /** LRANGE, and what LTRIM keeps, up to the last element. */
  function TailFrom(list: seq<Entry>, start: int): seq<Entry> {
    if FromEnd(|list|, start) >= |list| then [] else list[FromEnd(|list|, start)..]
  }

  /** The last `n` of the last `cap` elements. */
  lemma TailOfTail(history: seq<Entry>, list: seq<Entry>, cap: nat, n: nat)
    requires n > 0 && list == history[|history| - Min(|history|, cap)..]
    ensures TailFrom(list, 0 - n as int) == history[|history| - Min(Min(|history|, cap), n)..]
  {
    assert |list| == Min(|history|, cap);
    assert FromEnd(|list|, 0 - n as int) == |list| - Min(|list|, n);
  }

  /** Asking a list kept to `cap` for the limit, or for `cap` without one, asks for what a listing has. */
  lemma AsManyAsListed(size: nat, cap: nat, limit: int)
    ensures Min(Min(size, cap), if limit > 0 then limit else cap) == Listed(size, cap, limit)
  {
  }

  class RedisStore {
    var list: seq<Entry>
    const cap: nat
    ghost var history: seq<Entry>

    ghost predicate Valid()
      reads this
    {
      cap > 0 && list == history[|history| - Min(|history|, cap)..]
    }

    constructor (capacity: int)
      ensures Valid() && history == []
      ensures cap == if capacity <= 0 then DEFAULT_CAPACITY else capacity
    {
      cap := if capacity <= 0 then DEFAULT_CAPACITY else capacity;
      list, history := [], [];
    }

    method Append(e: Entry)
      requires Valid()
      modifies this
      ensures Valid() && history == old(history) + [e]
    {
      var pushed := list + [e];
      list := TailFrom(pushed, 0 - cap as int);
      history := history + [e];
      assert pushed == history[|history| - Min(|history|, cap + 1)..];
      TailOfTail(history, pushed, cap + 1, cap);
    }

    method List(limit: int) returns (out: seq<Entry>)
      requires Valid()
      ensures out == Listing(history, cap, limit)
    {
      var n: nat := if limit > 0 then limit else cap;
      var raws := TailFrom(list, 0 - n as int);
      TailOfTail(history, list, cap, n);
      AsManyAsListed(|history|, cap, limit);
      out := NewestFirst(raws);
    }
  }

  /** The loop that turns a list around. */
  method NewestFirst(raws: seq<Entry>) returns (out: seq<Entry>)
    ensures out == Reversed(raws)
  {
    out := [];
    var i := |raws| - 1;
    while i >= 0
      invariant -1 <= i < |raws| && |out| == |raws| - 1 - i
      invariant forall k | 0 <= k < |out| :: out[k] == raws[|raws| - 1 - k]
    {
      out := out + [raws[i]];
      i := i - 1;
    }
  }

  /** The two stores, given the same entries and the same capacity, answer alike. */
  method SameAnswers(entries: seq<Entry>, capacity: int, limit: int) returns (mem: seq<Entry>, redis: seq<Entry>)
    ensures mem == redis == Listing(entries, if capacity <= 0 then DEFAULT_CAPACITY else capacity, limit)
  {
    var m := new MemStore(capacity);
    var r := new RedisStore(capacity);
    for i := 0 to |entries|
      invariant m.Valid() && r.Valid() && fresh(m) && fresh(r) && fresh(m.buf)
      invariant m.history == r.history == entries[..i]
    {
      m.Append(entries[i]);
      r.Append(entries[i]);
      assert entries[..i + 1] == entries[..i] + [entries[i]];
    }
    assert entries[..|entries|] == entries;
    mem := m.List(limit);
    redis := r.List(limit);
  }
}
