/** Every list of the kernel as a sequence, and for every link field the list it is on. */
module ListModel {
  /**
    The lists: 32 ready queues, one wait queue per semaphore, mutex and message queue, the ticks, the stored messages.
   */
  datatype ListId = Ready(p: nat) | SemWait(i: nat) | MutexWait(i: nat) | MsgWait(i: nat) | Ticks | Msgs(i: nat)

  /**
    The structures with an embedded link: a task's TCB.list and TCB.delay, a software timer, a message; and list heads.
   */
  datatype Entry = Task(t: nat) | Delay(t: nat) | Timer(k: nat) | Msg(m: nat) | Head(l: ListId)

  datatype Lists = Lists(q: map<ListId, seq<Entry>>, at: map<Entry, ListId>)

  /** The contents of a list, empty when there is no such list. */
  function Q(v: Lists, l: ListId): seq<Entry> { if l in v.q then v.q[l] else [] }

  ghost predicate NoDup<T>(s: seq<T>) { forall i, j | 0 <= i < j < |s| :: s[i] != s[j] }

  /** No entry is on a list twice or on two lists, and `at` says exactly which list each entry is on. */
  ghost predicate Ok(v: Lists) {
    && (forall l | l in v.q :: NoDup(v.q[l]))
    && (forall l, e | l in v.q && e in v.q[l] :: e in v.at && v.at[e] == l)
    && (forall e | e in v.at :: v.at[e] in v.q && e in v.q[v.at[e]])
  }

  lemma EmptyOk(v: Lists)
    requires v.at == map[] && forall l | l in v.q :: v.q[l] == []
    ensures Ok(v)
  {
  }

  lemma OkApart(v: Lists, l: ListId, l': ListId)
    requires Ok(v) && l in v.q && l' in v.q && l != l'
    ensures forall e | e in v.q[l] :: e !in v.q[l']
  {
    forall e | e in v.q[l]
      ensures e !in v.q[l']
    {
      OkAt(v, l, e);
      OkAt(v, l', e);
    }
  }

  lemma OkOff(v: Lists, e: Entry)
    requires Ok(v) && e !in v.at
    ensures forall l | l in v.q :: e !in v.q[l]
  {
  }

  lemma OkAt(v: Lists, l: ListId, e: Entry)
    requires Ok(v) && l in v.q
    ensures e in v.q[l] ==> e in v.at && v.at[e] == l
  {
  }

  /** `s` without the first occurrence of `e`. */
  function Without(s: seq<Entry>, e: Entry): seq<Entry> {
    if s == [] then [] else if s[0] == e then s[1..] else [s[0]] + Without(s[1..], e)
  }

  function InsertTail(v: Lists, l: ListId, e: Entry): Lists { Lists(v.q[l := Q(v, l) + [e]], v.at[e := l]) }

  function InsertHead(v: Lists, l: ListId, e: Entry): Lists { Lists(v.q[l := [e] + Q(v, l)], v.at[e := l]) }

  function Delete(v: Lists, e: Entry): Lists
    requires e in v.at
  {
    Lists(v.q[v.at[e] := Without(Q(v, v.at[e]), e)], v.at - {e})
  }

  /** `v'` is `v` with only the contents of list `l` replaced, and only `e` having come or gone. */
  ghost predicate Changes(v: Lists, v': Lists, l: ListId, e: Entry, q: seq<Entry>) {
    && v'.q == v.q[l := q] && v'.at.Keys <= v.at.Keys + {e}
  }

  lemma {:induction false} WithoutMeaning(s: seq<Entry>, e: Entry, k: nat)
    requires NoDup(s) && k < |s| && s[k] == e
    ensures Without(s, e) == s[..k] + s[k + 1..]
  {
    if k > 0 {
      assert s[0] != s[k];
      WithoutMeaning(s[1..], e, k - 1);
      assert s[..k] == [s[0]] + s[1..][..k - 1];
    }
  }

  lemma WithoutElements(s: seq<Entry>, e: Entry)
    requires NoDup(s) && e in s
    ensures NoDup(Without(s, e)) && |Without(s, e)| == |s| - 1
    ensures forall x :: x in Without(s, e) <==> x in s && x != e
  {
    var k :| 0 <= k < |s| && s[k] == e;
    WithoutMeaning(s, e, k);
    forall x | x in s && x != e
      ensures x in Without(s, e)
    {
      var i :| 0 <= i < |s| && s[i] == x;
      assert x == (s[..k] + s[k + 1..])[if i < k then i else i - 1];
    }
  }

  lemma InsertTailOk(v: Lists, l: ListId, e: Entry)
    requires Ok(v) && l in v.q && e !in v.at
    ensures Ok(InsertTail(v, l, e)) && Changes(v, InsertTail(v, l, e), l, e, v.q[l] + [e])
  {
    assert e !in v.q[l];
    Replaced(v, InsertTail(v, l, e), l);
  }

  lemma InsertHeadOk(v: Lists, l: ListId, e: Entry)
    requires Ok(v) && l in v.q && e !in v.at
    ensures Ok(InsertHead(v, l, e)) && Changes(v, InsertHead(v, l, e), l, e, [e] + v.q[l])
  {
    assert e !in v.q[l];
    Replaced(v, InsertHead(v, l, e), l);
  }

  /** Only list `l` changed, and `at` was brought in line with its new contents. */
  lemma Replaced(v: Lists, v': Lists, l: ListId)
    requires Ok(v) && l in v.q && v'.q.Keys == v.q.Keys && NoDup(v'.q[l])
    requires forall l' | l' in v.q && l' != l :: v'.q[l'] == v.q[l']
    requires forall e | e in v'.at && v'.at[e] != l :: e in v.at && v.at[e] == v'.at[e]
    requires forall e | e in v.at && v.at[e] != l :: e in v'.at && v.at[e] == v'.at[e]
    requires forall e :: (e in v'.at && v'.at[e] == l) <==> e in v'.q[l]
    ensures Ok(v')
  {
  }

  lemma OkIff(v: Lists, e: Entry, l: ListId)
    requires Ok(v) && e in v.at && l == v.at[e]
    ensures l in v.q && NoDup(v.q[l])
    ensures forall x :: x in v.q[l] <==> x in v.at && v.at[x] == l
  {
  }

  lemma DeleteOk(v: Lists, e: Entry)
    requires Ok(v) && e in v.at
    ensures Ok(Delete(v, e)) && Changes(v, Delete(v, e), v.at[e], e, Without(v.q[v.at[e]], e))
    ensures Delete(v, e).at == v.at - {e}
  {
    hide Without, NoDup, Ok;
    var l, v' := v.at[e], Delete(v, e);
    OkIff(v, e, l);
    WithoutElements(v.q[l], e);
    assert v'.q.Keys == v.q.Keys && v'.q[l] == Without(v.q[l], e);
    Replaced(v, v', l);
  }
}
