/**
  * The agent runtime's reply cache: an order list and a reply map kept in step,
  * proved to be a least-recently-used cache over every run, and its state file.
  */
module DedupStore {
  import opened Decimal

  type Reply = string

  /** The cached replies and their ids, least recently used first. */
  datatype State = State(order: seq<string>, replies: map<string, Reply>)

  /** The state file: a file may lack the map or the order list. */
  datatype File = File(replies: Option<map<string, Reply>>, order: seq<string>)

  datatype Op = Recall(id: string) | Remember(id: string, reply: Reply)

  const EMPTY := State([], map[])

  // ---------------------------------------------------------------- lists of ids

  predicate NoRepeats(s: seq<string>) {
    forall i, j :: 0 <= i < j < |s| ==> s[i] != s[j]
  }

  function Elems(s: seq<string>): set<string> {
    set x | x in s
  }

  /** The order list holds every cached id once. */
  predicate Agree(s: State) {
    NoRepeats(s.order) && Elems(s.order) == s.replies.Keys
  }

  function LastN(s: seq<string>, n: nat): seq<string> {
    if |s| <= n then s else s[|s| - n..]
  }

  /** A list without its first occurrence of an id. */
  function Without(s: seq<string>, id: string): seq<string> {
    if s == [] then []
    else if s[0] == id then s[1..]
    else [s[0]] + Without(s[1..], id)
  }

  function Touched(s: seq<string>, id: string): seq<string> {
    if id in s then Without(s, id) + [id] else s
  }

  // ---------------------------------------------------------------- one operation

  function Kept(order: seq<string>, n: nat): nat {
    if |order| <= n then 0 else |order| - n
  }

  /** The effect of one operation with a cache of `n`. */
  function Applied(s: State, op: Op, n: nat): State {
    match op
    case Recall(id) => if id in s.replies then s.(order := Touched(s.order, id)) else s
    case Remember(id, reply) =>
      var order := if id in s.replies then s.order else s.order + [id];
      var cut := Kept(order, n);
      State(order[cut..], s.replies[id := reply] - Elems(order[..cut]))
  }

  class Store {
    var order: seq<string>
    var replies: map<string, Reply>
    /** What the mounted volume holds; a store without one never reads it back. */
    var file: Option<File>
    const persistent: bool

    ghost function View(): State
      reads this
    {
      State(order, replies)
    }

    /** A store over a volume recovers what the file holds. */
    constructor (persistent: bool, file: Option<File>)
      ensures this.persistent == persistent && this.file == file
      ensures !persistent || file.None? ==> View() == EMPTY
      ensures persistent && file.Some? ==> Recovered(file.value, View())
    {
      this.persistent, this.file := persistent, file;
      order, replies := [], map[];
      new;
      if persistent && file.Some? {
        order, replies := Load(file.value);
      }
    }

    method Flush(fails: bool)
      modifies this`file
      ensures file == if persistent && !fails then Some(File(Some(replies), order)) else old(file)
    {
      if persistent && !fails {
        file := Some(File(Some(replies), order));
      }
    }

    method Touch(id: string)
      modifies this`order
      ensures order == Touched(old(order), id)
    {
      for i := 0 to |order|
        invariant order == old(order) && id !in order[..i]
      {
        if order[i] == id {
          WithoutAt(order, id, i);
          order := order[..i] + order[i + 1..] + [id];
          return;
        }
      }
      assert order[..|order|] == order;
    }

    /** A hit refreshes the id's recency. */
    method RecallReply(id: string) returns (reply: Option<Reply>)
      modifies this`order
      ensures reply == if id in replies then Some(replies[id]) else None
      ensures View() == Applied(old(View()), Recall(id), 0)
    {
      if id !in replies {
        return None;
      }
      Touch(id);
      return Some(replies[id]);
    }

    /** Records a reply and evicts from the old end while the cache is over its size. */
    method RememberReply(id: string, reply: Reply, size: nat, flushFails: bool)
      modifies this
      ensures View() == Applied(old(View()), Remember(id, reply), size)
      ensures persistent && !flushFails ==> file == Some(File(Some(replies), order))
      ensures !(persistent && !flushFails) ==> file == old(file)
    {
      hide Elems;
      if id !in replies {
        order := order + [id];
      }
      replies := replies[id := reply];
      ghost var full, all := order, replies;
      ghost var cut := 0;
      NoElems();
      while |order| > size
        invariant cut <= Kept(full, size) && order == full[cut..] && replies == all - Elems(full[..cut])
        invariant file == old(file)
      {
        var oldest := order[0];
        order := order[1..];
        replies := replies - {oldest};
        DropNext(all, full, cut);
        cut := cut + 1;
      }
      Flush(flushFails);
    }
  }

  lemma {:induction false} WithoutAt(s: seq<string>, id: string, i: nat)
    requires i < |s| && s[i] == id && id !in s[..i]
    ensures Without(s, id) == s[..i] + s[i + 1..]
    decreases i
  {
    if i > 0 {
      assert s[0] != id by {
        assert s[0] in s[..i];
      }
      assert s[1..][..i - 1] == s[..i][1..];
      WithoutAt(s[1..], id, i - 1);
      assert s[1..][i..] == s[i + 1..];
      assert s[..i] == [s[0]] + s[1..][..i - 1];
    }
  }

  lemma DropNext(all: map<string, Reply>, full: seq<string>, cut: nat)
    requires cut < |full|
    ensures all - Elems(full[..cut + 1]) == (all - Elems(full[..cut])) - {full[cut]}
  {
    assert full[..cut + 1] == full[..cut] + [full[cut]];
    assert Elems(full[..cut + 1]) == Elems(full[..cut]) + {full[cut]};
  }

  // ---------------------------------------------------------------- recovery

  /** The listed ids that have a reply. */
  function Listed(order: seq<string>, replies: map<string, Reply>): seq<string> {
    if order == [] then []
    else (if order[0] in replies then [order[0]] else []) + Listed(order[1..], replies)
  }

  function RepliesOf(file: File): map<string, Reply> {
    if file.replies.Some? then file.replies.value else map[]
  }

  /**
    * What loading a file yields: its replies, the listed ids first and in their
    * order, and map and list in agreement exactly when those have no repeats.
    */
  ghost predicate Recovered(file: File, s: State) {
    var listed := Listed(file.order, RepliesOf(file));
    && s.replies == RepliesOf(file)
    && listed <= s.order
    && (Agree(s) <==> NoRepeats(listed))
    && (Elems(listed) == s.replies.Keys && NoRepeats(listed) ==> s.order == listed)
  }

  lemma {:induction false} ElemsCount(s: seq<string>)
    ensures |Elems(s)| <= |s|
    ensures NoRepeats(s) <==> |Elems(s)| == |s|
    decreases |s|
  {
    if s != [] {
      var n := |s| - 1;
      var rest := s[..n];
      assert s == rest + [s[n]];
      assert Elems(s) == Elems(rest) + {s[n]};
      ElemsCount(rest);
      if s[n] in rest {
        var i :| 0 <= i < n && rest[i] == s[n];
        assert !NoRepeats(s);
        assert Elems(s) == Elems(rest);
      } else {
        assert NoRepeats(s) <==> NoRepeats(rest);
      }
    }
  }

  lemma {:induction false} ListedKnown(order: seq<string>, replies: map<string, Reply>)
    ensures Elems(Listed(order, replies)) <= replies.Keys
  {
    if order != [] {
      ListedKnown(order[1..], replies);
    }
  }

  lemma {:induction false} ListedNext(order: seq<string>, replies: map<string, Reply>, i: nat)
    requires i < |order|
    ensures Listed(order[..i + 1], replies) ==
            Listed(order[..i], replies) + (if order[i] in replies then [order[i]] else [])
    decreases i
  {
    if i > 0 {
      ListedNext(order[1..], replies, i - 1);
      assert order[..i + 1][1..] == order[1..][..i] && order[..i][1..] == order[1..][..i - 1];
    } else {
      assert order[..1] == [order[0]] && order[..0] == [] && [order[0]][1..] == [];
    }
  }

  /** Reads a state file; ids the order list misses are appended in any order. */
  method Load(file: File) returns (order: seq<string>, replies: map<string, Reply>)
    ensures Recovered(file, State(order, replies))
  {
    replies := if file.replies.Some? then file.replies.value else map[];
    order := [];
    for i := 0 to |file.order|
      invariant order == Listed(file.order[..i], replies)
    {
      ListedNext(file.order, replies, i);
      if file.order[i] in replies {
        order := order + [file.order[i]];
      }
    }
    assert file.order[..|file.order|] == file.order;
    ghost var listed := order;
    ListedKnown(file.order, replies);
    ElemsCount(listed);
    if |order| < |replies| {
      order := AddMissing(order, replies);
      ElemsCount(order);
    } else {
      CoversAll(listed, replies.Keys);
    }
  }

  lemma CoversAll(listed: seq<string>, keys: set<string>)
    requires Elems(listed) <= keys && |listed| >= |keys|
    ensures NoRepeats(listed) ==> Elems(listed) == keys
  {
    ElemsCount(listed);
    if NoRepeats(listed) && Elems(listed) != keys {
      var k :| k in keys && k !in Elems(listed);
      SubsetSize(Elems(listed), keys - {k});
    }
  }

  lemma {:induction false} SubsetSize(a: set<string>, b: set<string>)
    requires a <= b
    ensures |a| <= |b|
    decreases |a|
  {
    if a != {} {
      var x :| x in a;
      SubsetSize(a - {x}, b - {x});
    }
  }

  lemma MoreElems(s: seq<string>, x: string)
    requires x !in s
    ensures Elems(s + [x]) == Elems(s) + {x} && (NoRepeats(s + [x]) <==> NoRepeats(s))
  {
    assert (s + [x])[..|s|] == s;
  }

  method AddMissing(listed: seq<string>, replies: map<string, Reply>) returns (order: seq<string>)
    requires Elems(listed) <= replies.Keys
    ensures listed <= order && Elems(order) == replies.Keys
    ensures NoRepeats(order) <==> NoRepeats(listed)
  {
    hide NoRepeats, Elems;
    order := listed;
    var known := Elems(listed);
    var todo := replies.Keys;
    while todo != {}
      invariant todo <= replies.Keys && listed <= order
      invariant Elems(order) == known + (replies.Keys - todo)
      invariant NoRepeats(order) <==> NoRepeats(listed)
      decreases |todo|
    {
      var id :| id in todo;
      todo := todo - {id};
      if id !in known {
        InElems(order, id);
        MoreElems(order, id);
        order := order + [id];
      }
    }
  }

  /** So any file whose order list has no repeats, one with no list included, is recovered in agreement. */
  lemma {:induction false} ListedNoRepeats(order: seq<string>, replies: map<string, Reply>)
    requires NoRepeats(order)
    ensures NoRepeats(Listed(order, replies)) && Elems(Listed(order, replies)) <= Elems(order)
    decreases |order|
  {
    if order != [] {
      var rest := order[1..];
      ListedNoRepeats(rest, replies);
      assert order[0] !in Elems(rest);
      assert Elems(rest) <= Elems(order);
    }
  }

  /** A flushed state in agreement is recovered as it was. */
  lemma FlushRoundTrip(s: State, r: State)
    requires Agree(s) && Recovered(File(Some(s.replies), s.order), r)
    ensures r == s
  {
    AllListed(s.order, s.replies);
  }

  lemma {:induction false} AllListed(order: seq<string>, replies: map<string, Reply>)
    requires Elems(order) <= replies.Keys
    ensures Listed(order, replies) == order
  {
    if order != [] {
      assert order[0] in Elems(order);
      forall x | x in Elems(order[1..]) ensures x in Elems(order) {
      }
      AllListed(order[1..], replies);
    }
  }

  // ---------------------------------------------------------------- least recently used

  /** Distinct ids by their last use, oldest first. */
  function ByLastUse(uses: seq<string>): seq<string> {
    if uses == [] then []
    else
      var last := uses[|uses| - 1];
      Without(ByLastUse(uses[..|uses| - 1]), last) + [last]
  }

  /** The `n` most recently used distinct ids. */
  function Window(uses: seq<string>, n: nat): seq<string> {
    LastN(ByLastUse(uses), n)
  }

  /** How many ids a run keeps: its size once something was remembered, before that all it started with. */
  function Capacity(s0: State, ops: seq<Op>, n: nat): nat {
    if (exists i :: 0 <= i < |ops| && ops[i].Remember?) || |s0.order| <= n then n else |s0.order|
  }

  /**
    * The uses of a run: what it started with, oldest first, then every insertion
    * of an id not in the window and every recall of one that is.
    */
  function Uses(s0: State, ops: seq<Op>, n: nat): seq<string> {
    if ops == [] then s0.order
    else
      var op, init := ops[|ops| - 1], ops[..|ops| - 1];
      var before := Uses(s0, init, n);
      if op.Recall? == (op.id in Window(before, Capacity(s0, init, n))) then before + [op.id] else before
  }

  function LastReply(s0: State, ops: seq<Op>, id: string): Option<Reply> {
    if ops == [] then (if id in s0.replies then Some(s0.replies[id]) else None)
    else
      var op := ops[|ops| - 1];
      if op.Remember? && op.id == id then Some(op.reply) else LastReply(s0, ops[..|ops| - 1], id)
  }

  function Ran(s0: State, ops: seq<Op>, n: nat): State {
    if ops == [] then s0 else Applied(Ran(s0, ops[..|ops| - 1], n), ops[|ops| - 1], n)
  }

  lemma WithoutFacts(s: seq<string>, id: string)
    requires NoRepeats(s)
    ensures NoRepeats(Without(s, id)) && Elems(Without(s, id)) == Elems(s) - {id}
    ensures |Without(s, id)| == |s| - if id in s then 1 else 0
  {
    hide Without, NoRepeats, Elems;
    if id in s {
      var i :| 0 <= i < |s| && s[i] == id;
      var a, b := s[..i], s[i + 1..];
      assert s == a + [id] + b;
      AbsentInFront(a, id, b);
      WithoutSplit(a, id, b);
      DropMiddle(a, id, b);
    } else {
      WithoutAbsent(s, id);
      InElems(s, id);
    }
  }

  lemma DropMiddle(a: seq<string>, x: string, b: seq<string>)
    requires NoRepeats(a + [x] + b)
    ensures NoRepeats(a + b) && Elems(a + b) == Elems(a + [x] + b) - {x}
  {
    var all, rest := a + [x] + b, a + b;
    forall j | 0 <= j < |rest| ensures rest[j] == all[if j < |a| then j else j + 1] && rest[j] != x {
      assert all[|a|] == x;
    }
    forall y | y in all && y != x ensures y in rest {
      var k :| 0 <= k < |all| && all[k] == y;
      assert rest[if k < |a| then k else k - 1] == y;
    }
  }

  lemma {:induction false} WithoutAbsent(s: seq<string>, id: string)
    requires id !in s
    ensures Without(s, id) == s
  {
    if s != [] {
      WithoutAbsent(s[1..], id);
    }
  }

  /** Every used id once. */
  lemma {:induction false} ByLastUseFacts(uses: seq<string>)
    ensures NoRepeats(ByLastUse(uses)) && Elems(ByLastUse(uses)) == Elems(uses)
    decreases |uses|
  {
    if uses != [] {
      var n := |uses| - 1;
      ByLastUseFacts(uses[..n]);
      WithoutFacts(ByLastUse(uses[..n]), uses[n]);
      var rest := Without(ByLastUse(uses[..n]), uses[n]);
      assert uses == uses[..n] + [uses[n]];
      assert uses[n] !in Elems(rest);
      assert Elems(rest + [uses[n]]) == Elems(rest) + {uses[n]};
    }
  }

  lemma Suffix(a: seq<string>, b: seq<string>, n: nat)
    requires |b| == n || (a == [] && |b| <= n)
    ensures LastN(a + b, n) == b
  {
  }

  lemma LastNSplit(d: seq<string>, n: nat) returns (older: seq<string>)
    ensures d == older + LastN(d, n)
    ensures older == [] || |LastN(d, n)| == n
    ensures |LastN(d, n)| <= n
  {
    older := d[..|d| - |LastN(d, n)|];
  }

  lemma WithoutSplit(a: seq<string>, x: string, b: seq<string>)
    requires x !in a
    ensures Without(a + [x] + b, x) == a + b
  {
    var s := a + [x] + b;
    assert s[..|a|] == a && s[|a| + 1..] == b;
    WithoutAt(s, x, |a|);
  }

  lemma AbsentInFront(a: seq<string>, x: string, b: seq<string>)
    requires NoRepeats(a + [x] + b)
    ensures x !in a
  {
    var s := a + [x] + b;
    forall i | 0 <= i < |a| ensures a[i] != x {
      assert s[i] == a[i] && s[|a|] == x;
    }
  }

  /** Using an id inside the window moves it to the end. */
  lemma WindowHit(d: seq<string>, x: string, n: nat)
    requires NoRepeats(d) && x in LastN(d, n)
    ensures LastN(Without(d, x) + [x], n) == Without(LastN(d, n), x) + [x]
  {
    hide Without, LastN, NoRepeats;
    var w := LastN(d, n);
    var older := LastNSplit(d, n);
    var i :| 0 <= i < |w| && w[i] == x;
    var before, after := w[..i], w[i + 1..];
    assert w == before + [x] + after;
    assert d == (older + before) + [x] + after;
    AbsentInFront(older + before, x, after);
    WithoutSplit(older + before, x, after);
    WithoutSplit(before, x, after);
    assert (older + before) + after + [x] == older + (before + after + [x]);
    Suffix(older, before + after + [x], n);
  }

  /** Using one outside it pushes out the oldest. */
  lemma WindowMiss(d: seq<string>, x: string, n: nat)
    requires NoRepeats(d) && x !in LastN(d, n)
    ensures LastN(Without(d, x) + [x], n) == LastN(LastN(d, n) + [x], n)
  {
    hide Without, NoRepeats;
    var w := LastN(d, n);
    var older := WithoutOlder(d, x, n);
    if n == 0 {
      assert LastN(Without(d, x) + [x], 0) == [] && LastN(w + [x], 0) == [];
    } else if |w| < n {
      assert [] + (w + [x]) == w + [x];
    } else {
      var tail := w[1..] + [x];
      assert older + w + [x] == (older + [w[0]]) + tail;
      assert w + [x] == [w[0]] + tail;
      Suffix(older + [w[0]], tail, n);
      Suffix([w[0]], tail, n);
    }
  }

  /** Dropping an id outside the window leaves the window's ids at the end. */
  lemma WithoutOlder(d: seq<string>, x: string, n: nat) returns (older: seq<string>)
    requires NoRepeats(d) && x !in LastN(d, n)
    ensures Without(d, x) == older + LastN(d, n)
    ensures |LastN(d, n)| < n ==> older == []
  {
    hide Without, LastN, NoRepeats;
    var w := LastN(d, n);
    older := LastNSplit(d, n);
    if x in older {
      var i :| 0 <= i < |older| && older[i] == x;
      var a, b := older[..i], older[i + 1..];
      assert older == a + [x] + b;
      assert d == a + [x] + (b + w);
      AbsentInFront(a, x, b + w);
      WithoutSplit(a, x, b + w);
      older := a + b;
      assert a + (b + w) == older + w;
    } else {
      assert x !in older + w;
      WithoutAbsent(d, x);
    }
  }

  /** What one operation does to an order list that agrees with its replies. */
  lemma AppliedAgrees(s: State, op: Op, n: nat)
    requires Agree(s)
    ensures var t := Applied(s, op, n);
            && Agree(t)
            && t.order == (if op.Recall? then (if op.id in s.order then Without(s.order, op.id) + [op.id] else s.order)
                           else LastN(if op.id in s.order then s.order else s.order + [op.id], n))
            && forall id :: id in t.replies ==>
                 if op.Remember? && id == op.id then t.replies[id] == op.reply
                 else id in s.replies && t.replies[id] == s.replies[id]
  {
    hide NoRepeats, Elems, Without;
    InElems(s.order, op.id);
    if op.Recall? {
      if op.id in s.order {
        RecallAgrees(s, op.id);
      }
    } else {
      RememberAgrees(s, op, n);
    }
  }

  lemma RecallAgrees(s: State, id: string)
    requires Agree(s) && id in s.order
    ensures var order := Without(s.order, id) + [id];
            Agree(s.(order := order)) && |order| == |s.order|
  {
    hide NoRepeats, Elems, Without;
    WithoutFacts(s.order, id);
    InElems(s.order, id);
    InElems(Without(s.order, id), id);
    SnocElems(Without(s.order, id), id);
  }

  lemma SplitElems(a: seq<string>, b: seq<string>)
    requires NoRepeats(a + b)
    ensures NoRepeats(b) && Elems(b) == Elems(a + b) - Elems(a)
  {
    var all := a + b;
    assert forall j :: 0 <= j < |b| ==> b[j] == all[|a| + j];
    forall j | 0 <= j < |b| ensures b[j] !in a {
      forall i | 0 <= i < |a| ensures a[i] != b[j] {
        assert all[i] == a[i] && all[|a| + j] == b[j];
      }
    }
  }

  lemma SnocElems(s: seq<string>, x: string)
    requires NoRepeats(s) && x !in s
    ensures NoRepeats(s + [x]) && Elems(s + [x]) == Elems(s) + {x}
  {
  }

  lemma RememberAgrees(s: State, op: Op, n: nat)
    requires Agree(s) && op.Remember?
    ensures Agree(Applied(s, op, n))
  {
    hide NoRepeats, Elems;
    InElems(s.order, op.id);
    var order := if op.id in s.replies then s.order else s.order + [op.id];
    if op.id !in s.replies {
      SnocElems(s.order, op.id);
    }
    var cut := Kept(order, n);
    assert order == order[..cut] + order[cut..];
    SplitElems(order[..cut], order[cut..]);
    assert (s.replies[op.id := op.reply] - Elems(order[..cut])).Keys
        == s.replies.Keys + {op.id} - Elems(order[..cut]);
  }

  lemma InElems(s: seq<string>, x: string)
    ensures x in Elems(s) <==> x in s
  {
  }

  lemma NoElems()
    ensures Elems([]) == {}
  {
  }

  /** A narrower window of a window. */
  lemma LastNNests(d: seq<string>, c: nat, n: nat)
    requires n <= c
    ensures LastN(LastN(d, c), n) == LastN(d, n)
  {
  }

  lemma {:induction false} ByLastUseOfDistinct(s: seq<string>)
    requires NoRepeats(s)
    ensures ByLastUse(s) == s
    decreases |s|
  {
    if s != [] {
      var n := |s| - 1;
      ByLastUseOfDistinct(s[..n]);
      assert s[n] !in s[..n];
      WithoutAbsent(s[..n], s[n]);
      assert s == s[..n] + [s[n]];
    }
  }

  /** The window after one more operation, from the window before it. */
  lemma WindowNext(uses: seq<string>, op: Op, c: nat, n: nat)
    requires op.Remember? ==> n <= c
    ensures var w := Window(uses, c);
            var used := if op.Recall? == (op.id in w) then uses + [op.id] else uses;
            Window(used, if op.Recall? then c else n) ==
            (if op.Recall? then (if op.id in w then Without(w, op.id) + [op.id] else w)
             else LastN(if op.id in w then w else w + [op.id], n))
  {
    hide Without, LastN, NoRepeats, Elems, ByLastUse;
    var d := ByLastUse(uses);
    ByLastUseFacts(uses);
    UseNext(uses, op.id);
    if op.id in LastN(d, c) {
      WindowHit(d, op.id, c);
      if op.Remember? {
        LastNNests(d, c, n);
      }
    } else {
      WindowMiss(d, op.id, c);
      if op.Remember? {
        LastNNests(Without(d, op.id) + [op.id], c, n);
        LastNNests(LastN(d, c) + [op.id], c, n);
      }
    }
  }

  lemma CapacityNext(s0: State, ops: seq<Op>, op: Op, n: nat)
    ensures Capacity(s0, ops + [op], n) == if op.Recall? then Capacity(s0, ops, n) else n
  {
    var more := ops + [op];
    if op.Remember? {
      assert more[|ops|].Remember?;
    } else if i :| 0 <= i < |ops| && ops[i].Remember? {
      assert more[i].Remember?;
    }
  }

  /**
    * From any state in agreement, one recovered from a file included, after any
    * run with a fixed size the cache holds exactly the most recently used
    * distinct ids, each once and oldest first, with their latest replies. A cache
    * recovered larger than the size shrinks to it with the first reply remembered.
    */
  lemma {:induction false} LruRefinement(s0: State, ops: seq<Op>, n: nat)
    requires Agree(s0)
    ensures var s := Ran(s0, ops, n);
            && Agree(s)
            && s.order == Window(Uses(s0, ops, n), Capacity(s0, ops, n))
            && forall id :: id in s.replies ==> LastReply(s0, ops, id) == Some(s.replies[id])
    decreases |ops|
  {
    hide Without, LastN, NoRepeats, Elems, Applied, ByLastUse, Window, Capacity;
    if ops == [] {
      WindowOfStart(s0, n);
    } else {
      var k := |ops| - 1;
      var before, op := ops[..k], ops[k];
      assert ops == before + [op];
      LruRefinement(s0, before, n);
      CapacityAtLeast(s0, before, n);
      CapacityNext(s0, before, op, n);
      AppliedAgrees(Ran(s0, before, n), op, n);
      WindowNext(Uses(s0, before, n), op, Capacity(s0, before, n), n);
    }
  }

  lemma CapacityAtLeast(s0: State, ops: seq<Op>, n: nat)
    ensures Capacity(s0, ops, n) >= n
  {
  }

  lemma WindowOfStart(s0: State, n: nat)
    requires Agree(s0)
    ensures Window(s0.order, Capacity(s0, [], n)) == s0.order
  {
    ByLastUseOfDistinct(s0.order);
  }

  lemma UseNext(uses: seq<string>, id: string)
    ensures ByLastUse(uses + [id]) == Without(ByLastUse(uses), id) + [id]
  {
    assert (uses + [id])[..|uses|] == uses;
  }
}
