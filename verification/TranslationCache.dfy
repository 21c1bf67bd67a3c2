/**
 The cache in front of the translation service (cachingTranslator,
 cmd/interpreter/translate.go): first in, first out, and only for answers.

 Looking up and storing are two critical sections with the service's answer between
 them, so a run here is any sequence of stores, each of an answer the service gave.
 */
module TranslationCache {
  import opened Options

  const CACHE_MAX := 512
  const NUL: char := '\0'

  datatype Cache = Cache(m: map<string, string>, order: seq<string>)

  const EMPTY := Cache(map[], [])

  /** What the service answered. */
  datatype Reply = Reply(text: string, from: string, to: string, val: string)

  function Key(text: string, from: string, to: string): string {
    from + [NUL] + to + [NUL] + text
  }

  function KeyOf(r: Reply): string {
    Key(r.text, r.from, r.to)
  }

  function Put(c: Cache, key: string, val: string): Cache {
    if key in c.m then c
    else if |c.order| >= CACHE_MAX then Cache((c.m - {c.order[0]})[key := val], c.order[1..] + [key])
    else Cache(c.m[key := val], c.order + [key])
  }

  function Run(replies: seq<Reply>): Cache
    decreases |replies|
  {
    if replies == [] then EMPTY
    else Put(Run(replies[..|replies| - 1]), KeyOf(replies[|replies| - 1]), replies[|replies| - 1].val)
  }

  /** The keys that went in, in order. */
  function Inserted(replies: seq<Reply>): seq<string>
    decreases |replies|
  {
    if replies == [] then []
    else
      var before := replies[..|replies| - 1];
      var key := KeyOf(replies[|replies| - 1]);
      if key in Run(before).m then Inserted(before) else Inserted(before) + [key]
  }

  // ---------------------------------------------------------------------------
  // Shape
  // ---------------------------------------------------------------------------

  ghost predicate Shaped(c: Cache) {
    && |c.order| <= CACHE_MAX
    && (forall key :: key in c.m <==> key in c.order)
    && (forall i, j | 0 <= i < j < |c.order| :: c.order[i] != c.order[j])
  }

  lemma PutKeepsShape(c: Cache, key: string, val: string)
    requires Shaped(c)
    ensures Shaped(Put(c, key, val))
  {
    if key !in c.m && |c.order| >= CACHE_MAX {
      var c' := Put(c, key, val);
      forall k ensures k in c'.m <==> k in c'.order {
        if k in c'.m && k != key {
          assert k in c.order && k != c.order[0];
          var i :| 0 <= i < |c.order| && c.order[i] == k;
          assert c'.order[i - 1] == k;
        }
      }
    }
  }

  /** The newest that went in: as many as fit. */
  function Newest(keys: seq<string>): seq<string> {
    if |keys| <= CACHE_MAX then keys else keys[|keys| - CACHE_MAX..]
  }

  lemma NewestWithOneMore(keys: seq<string>, key: string)
    ensures Newest(keys + [key]) == if |Newest(keys)| < CACHE_MAX then Newest(keys) + [key]
      else Newest(keys)[1..] + [key]
  {
  }

  /**
   The keys held are, without repetition, the newest that went in: at most 512, and
   only the oldest insertion ever makes room.
   */
  lemma {:induction false} HoldsTheNewest(replies: seq<Reply>)
    ensures Shaped(Run(replies)) && Run(replies).order == Newest(Inserted(replies))
    decreases |replies|
  {
    if replies != [] {
      var before := replies[..|replies| - 1];
      var last := replies[|replies| - 1];
      HoldsTheNewest(before);
      PutKeepsShape(Run(before), KeyOf(last), last.val);
      NewestWithOneMore(Inserted(before), KeyOf(last));
    }
  }

  // ---------------------------------------------------------------------------
  // Agreement with the service
  // ---------------------------------------------------------------------------

  predicate NulFree(s: string) {
    forall i | 0 <= i < |s| :: s[i] != NUL
  }

  /** A NUL-free beginning up to a NUL can be read back. */
  lemma HeadIsUnique(a: string, b: string, s: string, t: string)
    requires NulFree(a) && NulFree(b) && a + [NUL] + s == b + [NUL] + t
    ensures a == b && s == t
  {
    var whole := a + [NUL] + s;
    assert whole[|a|] == NUL && whole[|b|] == NUL;
    assert forall i | 0 <= i < |a| :: whole[i] == a[i];
    assert forall i | 0 <= i < |b| :: whole[i] == b[i];
    assert |a| == |b|;
    assert a == whole[..|a|] && b == whole[..|b|];
    assert s == whole[|a| + 1..] && t == whole[|b| + 1..];
  }

  /** One key, one request, as long as the language codes are free of NUL. */
  lemma KeyIsInjective(a: Reply, b: Reply)
    requires NulFree(a.from) && NulFree(a.to) && NulFree(b.from) && NulFree(b.to)
    requires KeyOf(a) == KeyOf(b)
    ensures a.text == b.text && a.from == b.from && a.to == b.to
  {
    assert KeyOf(a) == a.from + [NUL] + (a.to + [NUL] + a.text);
    assert KeyOf(b) == b.from + [NUL] + (b.to + [NUL] + b.text);
    HeadIsUnique(a.from, b.from, a.to + [NUL] + a.text, b.to + [NUL] + b.text);
    HeadIsUnique(a.to, b.to, a.text, b.text);
  }

  /** What stands before the text in a key. */
  function Header(from: string, to: string): string {
    from + [NUL] + to + [NUL]
  }

  /** With languages from this set, one key means one request. */
  ghost predicate TellsApart(codes: set<string>) {
    forall a: Reply, b: Reply | a.from in codes && a.to in codes && b.from in codes && b.to in codes &&
      KeyOf(a) == KeyOf(b) ::
      a.text == b.text && a.from == b.from && a.to == b.to
  }

  /** No header is the beginning of another pair's. */
  ghost predicate PrefixFree(codes: set<string>) {
    forall f, t, g, u | f in codes && t in codes && g in codes && u in codes && Header(f, t) <= Header(g, u) ::
      f == g && t == u
  }

  /** Exactly when the headers are prefix-free, keys tell requests apart; NUL-free codes are one such set. */
  lemma TellsApartIff(codes: set<string>)
    ensures TellsApart(codes) <==> PrefixFree(codes)
  {
    if PrefixFree(codes) {
      forall a: Reply, b: Reply | a.from in codes && a.to in codes && b.from in codes && b.to in codes &&
        KeyOf(a) == KeyOf(b)
        ensures a.text == b.text && a.from == b.from && a.to == b.to
      {
        SameKey(a, b);
      }
    } else {
      var f, t, g, u :| f in codes && t in codes && g in codes && u in codes && Header(f, t) <= Header(g, u) &&
        !(f == g && t == u);
      var rest := Header(g, u)[|Header(f, t)|..];
      var a, b := Reply(rest, f, t, ""), Reply("", g, u, "");
      KeyStartsWithHeader(a);
      KeyStartsWithHeader(b);
      assert KeyOf(a) == KeyOf(b);
    }
  }

  lemma KeyStartsWithHeader(r: Reply)
    ensures KeyOf(r) == Header(r.from, r.to) + r.text
  {
  }

  /** Of two equal keys one header begins the other. */
  lemma SameKey(a: Reply, b: Reply)
    requires KeyOf(a) == KeyOf(b)
    ensures Header(a.from, a.to) <= Header(b.from, b.to) || Header(b.from, b.to) <= Header(a.from, a.to)
    ensures a.from == b.from && a.to == b.to ==> a.text == b.text
  {
    KeyStartsWithHeader(a);
    KeyStartsWithHeader(b);
    var x, y := Header(a.from, a.to), Header(b.from, b.to);
    assert KeyOf(a)[..|x|] == x && KeyOf(b)[..|y|] == y;
    assert KeyOf(a)[|x|..] == a.text && KeyOf(b)[|y|..] == b.text;
    if |x| <= |y| {
      assert y[..|x|] == x;
    } else {
      assert x[..|y|] == y;
    }
  }

  lemma NulFreeIsPrefixFree(codes: set<string>)
    requires forall c | c in codes :: NulFree(c)
    ensures PrefixFree(codes)
  {
    forall f, t, g, u | f in codes && t in codes && g in codes && u in codes && Header(f, t) <= Header(g, u)
      ensures f == g && t == u
    {
      var rest := Header(g, u)[|Header(f, t)|..];
      assert Header(f, t) + rest == Header(g, u);
      KeyIsInjective(Reply(rest, f, t, ""), Reply("", g, u, "")) by {
        KeyStartsWithHeader(Reply(rest, f, t, ""));
        KeyStartsWithHeader(Reply("", g, u, ""));
      }
    }
  }

  predicate Codes(replies: seq<Reply>) {
    forall i | 0 <= i < |replies| :: NulFree(replies[i].from) && NulFree(replies[i].to)
  }

  lemma {:induction false} HeldWasStored(replies: seq<Reply>, key: string)
    requires key in Run(replies).m
    ensures exists i :: 0 <= i < |replies| && KeyOf(replies[i]) == key && replies[i].val == Run(replies).m[key]
    decreases |replies|
  {
    var before := replies[..|replies| - 1];
    var last := replies[|replies| - 1];
    if key in Run(before).m && Run(replies).m[key] == Run(before).m[key] {
      HeldWasStored(before, key);
      var i :| 0 <= i < |before| && KeyOf(before[i]) == key && before[i].val == Run(before).m[key];
      assert replies[i] == before[i];
    } else {
      HoldsTheNewest(before);
      assert KeyOf(last) == key && last.val == Run(replies).m[key];
    }
  }

  /** While a key is held, it is held with the answer that it went in with. */
  lemma HeldStaysTheSame(replies: seq<Reply>, reply: Reply, key: string)
    requires key in Run(replies).m && key in Run(replies + [reply]).m
    ensures Run(replies + [reply]).m[key] == Run(replies).m[key]
  {
    assert (replies + [reply])[..|replies|] == replies;
  }

  /** A hit is an answer the service gave to exactly this request. */
  lemma HitIsAReply(replies: seq<Reply>, text: string, from: string, to: string)
    requires Codes(replies) && NulFree(from) && NulFree(to)
    requires Key(text, from, to) in Run(replies).m
    ensures Reply(text, from, to, Run(replies).m[Key(text, from, to)]) in replies
  {
    var key := Key(text, from, to);
    HeldWasStored(replies, key);
    var i :| 0 <= i < |replies| && KeyOf(replies[i]) == key && replies[i].val == Run(replies).m[key];
    KeyIsInjective(replies[i], Reply(text, from, to, ""));
    assert replies[i] == Reply(text, from, to, Run(replies).m[key]);
  }

  // ---------------------------------------------------------------------------
  // The cache itself
  // ---------------------------------------------------------------------------

  class CachingTranslator {
    var m: map<string, string>
    var order: seq<string>
    ghost var replies: seq<Reply>   // stored in this order

    ghost function View(): Cache
      reads this
    {
      Cache(m, order)
    }

    ghost predicate Valid()
      reads this
    {
      View() == Run(replies) && Codes(replies)
    }

    constructor ()
      ensures Valid() && replies == []
    {
      m, order, replies := map[], [], [];
    }

    method Get(key: string) returns (v: Option<string>)
      ensures v == if key in m then Some(m[key]) else None
    {
      v := if key in m then Some(m[key]) else None;
    }

    method PutKey(key: string, val: string)
      modifies this`m, this`order
      ensures View() == Put(old(View()), key, val)
    {
      if key in m {
        return;
      }
      if |order| >= CACHE_MAX {
        m := m - {order[0]};
        order := order[1..];
      }
      m := m[key := val];
      order := order + [key];
    }

    /** With the service's answer, or its failure, should it be asked. */
    method Translate(text: string, from: string, to: string, answer: Option<string>) returns (r: Option<string>)
      requires Valid() && NulFree(from) && NulFree(to)
      modifies this
      ensures Valid()
      ensures answer.None? ==> View() == old(View()) && replies == old(replies)
      ensures r.Some? ==> Reply(text, from, to, r.value) in replies
      ensures r.None? <==> answer.None? && Key(text, from, to) !in old(m)
      ensures Key(text, from, to) in old(m) ==> r == Some(old(m)[Key(text, from, to)]) && View() == old(View())
    {
      var key := Key(text, from, to);
      r := Get(key);
      if r.Some? {
        HitIsAReply(replies, text, from, to);
        return;
      }
      if answer.None? {
        return None;
      }
      PutKey(key, answer.value);
      ghost var reply := Reply(text, from, to, answer.value);
      ghost var before := replies;
      replies := replies + [reply];
      assert replies[..|replies| - 1] == before;
      assert replies[|replies| - 1] == reply;
      return answer;
    }
  }
}
