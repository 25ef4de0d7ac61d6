/** Choosing which thread messages to display.

    The service lists a thread's messages in no guaranteed order. The entry
    flow sorts them with the comparator `a.created_at < b.created_at ? -1 : 1`
    and prints all of them after the first turn and only the last two after
    the second. The comparator never answers 0, so the relative order of
    messages created at the same instant is left to the sorting engine. The
    model sorts by insertion and keeps such messages in listing order, as a
    stable sort consulting only `< 0` does. Chronological order and the
    permutation hold for any sort by that comparator; `SortIsStable` and
    `TiesKeepListingOrder` state this model's choice for ties. */
module MessageDisplay {

  import opened Wrappers

  /** One part of a message's content: text, or a file reference. */
  datatype ContentPart = Text(value: string) | ImageFile(fileId: string)

  /** A listed message: `assistantId` is present for assistant messages. */
  datatype Message = Message(id: string, createdAt: int, assistantId: Option<string>, content: seq<ContentPart>)

  /** Printing a message reads the text of its first content part; a message
      without content, or whose first part is not text, makes that throw. */
  predicate Printable(m: Message) {
    |m.content| > 0 && m.content[0].Text?
  }

  /** Every message of a display can be printed. */
  predicate AllPrintable(shown: seq<Message>) {
    forall i :: 0 <= i < |shown| ==> Printable(shown[i])
  }

  /** The comparator puts `a` first exactly when it was created earlier. */
  predicate Before(a: Message, b: Message) {
    a.createdAt < b.createdAt
  }

  /** Non-decreasing in creation time. */
  ghost predicate Chronological(s: seq<Message>) {
    forall i, j :: 0 <= i < j < |s| ==> s[i].createdAt <= s[j].createdAt
  }

  /** Messages created at the same instant are the same message. */
  ghost predicate DistinctTimes(s: seq<Message>) {
    forall x, y :: x in s && y in s && x.createdAt == y.createdAt ==> x == y
  }

  /** Places `m` into a chronological list, before the first message that
      does not come `Before` it, so `m` precedes messages of equal time. */
  function Insert(m: Message, s: seq<Message>): (r: seq<Message>)
    requires Chronological(s)
    ensures Chronological(r)
    ensures multiset(r) == multiset(s) + multiset{m}
    ensures |r| == |s| + 1 && (r[0] == m || (|s| > 0 && r[0] == s[0]))
  {
    if |s| == 0 then [m]
    else if !Before(s[0], m) then [m] + s
    else
      var rest := Insert(m, s[1..]);
      KeepHead(s[0], rest);
      assert s == [s[0]] + s[1..];
      assert multiset([s[0]] + rest) == multiset{s[0]} + multiset(rest);
      [s[0]] + rest
  }

  /** A message no later than the first of a chronological list may precede
      it. */
  lemma KeepHead(h: Message, rest: seq<Message>)
    requires Chronological(rest) && |rest| > 0 && h.createdAt <= rest[0].createdAt
    ensures Chronological([h] + rest)
  {
    var r := [h] + rest;
    forall i, j | 0 <= i < j < |r|
      ensures r[i].createdAt <= r[j].createdAt
    {
      if i == 0 {
        assert r[j] == rest[j - 1];
      } else {
        assert r[i] == rest[i - 1] && r[j] == rest[j - 1];
      }
    }
  }

  /** `messages.data.sort(...)`: a chronological permutation of the listed
      messages. */
  function Sort(s: seq<Message>): (r: seq<Message>)
    ensures Chronological(r)
    ensures multiset(r) == multiset(s)
  {
    if |s| == 0 then []
    else
      assert s == [s[0]] + s[1..];
      Insert(s[0], Sort(s[1..]))
  }

  /** The messages of `s` created at instant `t`, in their order in `s`. */
  function AtInstant(s: seq<Message>, t: int): seq<Message> {
    if |s| == 0 then []
    else (if s[0].createdAt == t then [s[0]] else []) + AtInstant(s[1..], t)
  }

  /** Inserting `m` puts it ahead of every message of its own instant and
      leaves the messages of other instants in their order. */
  lemma {:induction false} InsertKeepsTies(m: Message, s: seq<Message>, t: int)
    requires Chronological(s)
    ensures AtInstant(Insert(m, s), t) ==
              if m.createdAt == t then [m] + AtInstant(s, t) else AtInstant(s, t)
    decreases |s|
  {
    if |s| == 0 {
      assert AtInstant([m], t) == (if m.createdAt == t then [m] else []) + AtInstant([], t);
    } else if !Before(s[0], m) {
      var r := [m] + s;
      assert r[0] == m && r[1..] == s;
    } else {
      TailKeepsOrder(s);
      InsertKeepsTies(m, s[1..], t);
      var r := [s[0]] + Insert(m, s[1..]);
      assert r[0] == s[0] && r[1..] == Insert(m, s[1..]);
    }
  }

  /** The sort is stable: for every instant, the messages created then come
      out in the order in which the service listed them. */
  lemma {:induction false} SortIsStable(s: seq<Message>, t: int)
    ensures AtInstant(Sort(s), t) == AtInstant(s, t)
    decreases |s|
  {
    if |s| > 0 {
      SortIsStable(s[1..], t);
      InsertKeepsTies(s[0], Sort(s[1..]), t);
    }
  }

  /** Messages created at the same instant keep the order in which the
      service listed them. */
  lemma TiesKeepListingOrder(a: Message, b: Message)
    requires a.createdAt == b.createdAt
    ensures Sort([a, b]) == [a, b]
  {
    assert [a, b][1..] == [b];
    assert [b][1..] == [];
  }

  /** `.slice(-2)`: the last two elements, or all of them when fewer. */
  function LastTwo(s: seq<Message>): (r: seq<Message>)
    ensures |r| == if |s| < 2 then |s| else 2
    ensures r == s[|s| - |r|..]
  {
    if |s| < 2 then s else s[|s| - 2..]
  }

  /** `shown` is every listed message, in creation order. */
  ghost predicate AllInOrder(shown: seq<Message>, listed: seq<Message>) {
    Chronological(shown) && multiset(shown) == multiset(listed)
  }

  /** `shown` is the two latest listed messages (all of them when fewer), in
      creation order: every listed message left out was created no later
      than each one shown. */
  ghost predicate LatestTwoInOrder(shown: seq<Message>, listed: seq<Message>) {
    && |shown| == (if |listed| < 2 then |listed| else 2)
    && Chronological(shown)
    && multiset(shown) <= multiset(listed)
    && forall x, y :: x in multiset(listed) - multiset(shown) && y in shown ==> x.createdAt <= y.createdAt
  }

  /** What the first display prints: every listed message, chronologically. */
  function FirstDisplay(listed: seq<Message>): (r: seq<Message>)
    ensures AllInOrder(r, listed)
  {
    Sort(listed)
  }

  /** What the second display prints: the two latest messages, in
      chronological order. Every listed message left out was created no later
      than each one shown. */
  function SecondDisplay(listed: seq<Message>): (r: seq<Message>)
    ensures LatestTwoInOrder(r, listed)
  {
    var sorted := Sort(listed);
    var r := LastTwo(sorted);
    SuffixIsLatest(sorted, |sorted| - |r|);
    r
  }

  /** A suffix of a chronological list is chronological, and everything
      before it is no later than everything in it. */
  lemma SuffixIsLatest(s: seq<Message>, n: nat)
    requires Chronological(s) && n <= |s|
    ensures Chronological(s[n..])
    ensures multiset(s) - multiset(s[n..]) == multiset(s[..n])
    ensures forall x, y :: x in s[..n] && y in s[n..] ==> x.createdAt <= y.createdAt
  {
    assert s == s[..n] + s[n..];
    assert multiset(s) == multiset(s[..n]) + multiset(s[n..]);
  }

  /** Two chronological lists with the same messages, whose creation times
      are distinct, start with the same message. */
  lemma SameFirst(a: seq<Message>, b: seq<Message>)
    requires Chronological(a) && Chronological(b)
    requires multiset(a) == multiset(b)
    requires DistinctTimes(a)
    requires |a| > 0 && |b| > 0
    ensures a[0] == b[0]
  {
    assert a[0] in multiset(b);
    var i :| 0 <= i < |b| && b[i] == a[0];
    assert b[0] in multiset(a);
    var k :| 0 <= k < |a| && a[k] == b[0];
    assert a[0].createdAt <= a[k].createdAt;
    assert b[0].createdAt <= b[i].createdAt;
  }

  /** With distinct creation times there is only one chronological order:
      two chronological lists holding the same messages are equal. So the
      displayed order does not depend on the order the service listed the
      messages in. */
  lemma {:induction false} ChronologicalUnique(a: seq<Message>, b: seq<Message>)
    requires Chronological(a) && Chronological(b)
    requires multiset(a) == multiset(b)
    requires DistinctTimes(a)
    ensures a == b
    decreases |a|
  {
    assert |a| == |b| by {
      assert |multiset(a)| == |multiset(b)|;
    }
    if |a| > 0 {
      SameFirst(a, b);
      DropFirst(a, b);
      TailKeepsOrder(a);
      TailKeepsOrder(b);
      ChronologicalUnique(a[1..], b[1..]);
      assert a == [a[0]] + a[1..] == [b[0]] + b[1..] == b;
    }
  }

  /** Removing an equal first message from two lists with the same messages
      leaves lists with the same messages. */
  lemma DropFirst(a: seq<Message>, b: seq<Message>)
    requires |a| > 0 && |b| > 0 && a[0] == b[0]
    requires multiset(a) == multiset(b)
    ensures multiset(a[1..]) == multiset(b[1..])
  {
    assert a == [a[0]] + a[1..];
    assert b == [b[0]] + b[1..];
    assert multiset(a[1..]) == multiset(a) - multiset{a[0]};
  }

  /** The tail of a chronological list with distinct times is one too. */
  lemma TailKeepsOrder(a: seq<Message>)
    requires |a| > 0 && Chronological(a)
    ensures Chronological(a[1..])
    ensures DistinctTimes(a) ==> DistinctTimes(a[1..])
  {
    assert forall x :: x in a[1..] ==> x in a;
    forall i, j | 0 <= i < j < |a| - 1
      ensures a[1..][i].createdAt <= a[1..][j].createdAt
    {
      assert a[1..][i] == a[i + 1] && a[1..][j] == a[j + 1];
    }
  }

  /** Listing order does not matter: any two listings of the same messages
      with distinct creation times display identically. */
  lemma DisplayIgnoresListingOrder(l1: seq<Message>, l2: seq<Message>)
    requires multiset(l1) == multiset(l2)
    requires DistinctTimes(l1)
    ensures FirstDisplay(l1) == FirstDisplay(l2)
    ensures SecondDisplay(l1) == SecondDisplay(l2)
  {
    var s1, s2 := Sort(l1), Sort(l2);
    assert forall x :: x in s1 <==> x in multiset(l1);
    ChronologicalUnique(s1, s2);
  }
}
