/** The asynchronous key gate: operations whose keys share a path exclude each other.

    `Gate` is the state under the cache mutex: the keys in use, the queue of waiting
    operations and what each operation holds. Class `KeyTable` runs the source's loops.
 */
module KeyGate {
  import opened EntryModel

  type Key = string

  // ---------------------------------------------------------------- conflicting keys

  /** One key equals the other or continues it after a '/'. */
  predicate Conflict(left: Key, right: Key)
  {
    if left == right then true
    else if |left| < |right| then left <= right && right[|left|] == '/'
    else right <= left && |right| < |left| && left[|right|] == '/'
  }

  /** The parts of a key between slashes. */
  function Components(key: Key): (c: seq<string>)
    ensures |c| > 0
  {
    if key == "" then [""]
    else
      var rest := Components(key[1..]);
      if key[0] == '/' then [""] + rest else [[key[0]] + rest[0]] + rest[1..]
  }

  predicate StartsWith(key: Key, prefix: Key)
  {
    prefix == key || (|prefix| < |key| && prefix <= key && key[|prefix|] == '/')
  }

  lemma {:induction false} StartsWithIffComponents(key: Key, prefix: Key)
    ensures StartsWith(key, prefix) <==> Components(prefix) <= Components(key)
    decreases |key| + |prefix|
  {
    var c, d := Components(key), Components(prefix);
    if prefix == "" {
      if key != "" && key[0] != '/' { assert d[0] != c[0]; }
    } else if key == "" {
      if prefix[0] == '/' { assert |d| > 1; } else { assert d[0] != c[0]; }
    } else {
      StartsWithIffComponents(key[1..], prefix[1..]);
      var c', d' := Components(key[1..]), Components(prefix[1..]);
      SameHead(key, prefix);
      if key[0] == prefix[0] {
        if key[0] == '/' {
          assert c[1..] == c' && d[1..] == d';
          assert d <= c <==> d' <= c' by { PrefixTail(d, c); }
        } else {
          assert c[1..] == c'[1..] && d[1..] == d'[1..];
          assert d <= c <==> d' <= c' by { PrefixTail(d, c); PrefixTail(d', c'); HeadChar(key[0], d'[0], c'[0]); }
        }
      } else if key[0] == '/' {
        assert c[0] == "" && |d[0]| > 0;
      } else if prefix[0] == '/' {
        assert d[0] == "" && |c[0]| > 0;
      } else {
        assert c[0][0] == key[0] && d[0][0] == prefix[0];
      }
    }
  }

  lemma PrefixTail(d: seq<string>, c: seq<string>)
    requires |d| > 0 && |c| > 0
    ensures d <= c <==> d[0] == c[0] && d[1..] <= c[1..]
  {
    if d[0] == c[0] && d[1..] <= c[1..] {
      assert d == [d[0]] + d[1..] && c == [c[0]] + c[1..];
    }
    if d <= c { assert d == c[..|d|]; }
  }

  lemma HeadChar(x: char, s: string, t: string)
    ensures [x] + s == [x] + t <==> s == t
  {
    if [x] + s == [x] + t { assert s == ([x] + s)[1..] && t == ([x] + t)[1..]; }
  }

  /** Dropping an equal first character changes nothing. */
  lemma SameHead(key: Key, prefix: Key)
    requires key != "" && prefix != ""
    ensures StartsWith(key, prefix) <==> key[0] == prefix[0] && StartsWith(key[1..], prefix[1..])
  {
    assert key == [key[0]] + key[1..] && prefix == [prefix[0]] + prefix[1..];
    if prefix <= key { assert prefix == key[..|prefix|]; assert prefix[1..] == key[1..][..|prefix| - 1]; }
    if key[0] == prefix[0] && prefix[1..] <= key[1..] {
      assert prefix == key[..|prefix|];
    }
  }

  /** Keys conflict exactly when one's component list is a prefix of the other's. */
  lemma ConflictIffPathPrefix(left: Key, right: Key)
    ensures Conflict(left, right) <==>
            Components(left) <= Components(right) || Components(right) <= Components(left)
  {
    StartsWithIffComponents(left, right);
    StartsWithIffComponents(right, left);
  }

  lemma ConflictSymmetric(left: Key, right: Key)
    ensures Conflict(left, right) == Conflict(right, left)
  {
  }

  // ---------------------------------------------------------------- the gate

  datatype Op = Op(keys: seq<Key>, held: bool, waiting: bool)

  datatype Gate = Gate(ops: map<nat, Op>, inUse: set<Key>, waiters: seq<nat>)

  datatype Outcome = Active | Queued | Failed

  /** `gate_available_locked`. */
  ghost predicate Admissible(g: Gate, keys: seq<Key>)
  {
    forall i, k | 0 <= i < |keys| && k in g.inUse :: !Conflict(k, keys[i])
  }

  function KeySet(keys: seq<Key>): set<Key> { set k | k in keys }

  function Claim(g: Gate, id: nat): Gate
    requires id in g.ops
  {
    g.(ops := g.ops[id := g.ops[id].(held := true, waiting := false)], inUse := g.inUse + KeySet(g.ops[id].keys))
  }

  function Release(g: Gate, id: nat): Gate
    requires id in g.ops
  {
    g.(ops := g.ops[id := g.ops[id].(held := false)], inUse := g.inUse - KeySet(g.ops[id].keys))
  }

  /** Take `id` out of the queue, wherever it stands. */
  function Dequeue(g: Gate, id: nat): Gate
    requires id in g.ops
  {
    g.(ops := g.ops[id := g.ops[id].(waiting := false)], waiters := Removed(g.waiters, id))
  }

  function IndexOf(s: seq<nat>, id: nat): (i: nat)
    ensures i <= |s| && (i < |s| ==> s[i] == id) && forall k | 0 <= k < i :: s[k] != id
  {
    if s == [] || s[0] == id then 0 else 1 + IndexOf(s[1..], id)
  }

  function Removed(s: seq<nat>, id: nat): seq<nat>
  {
    var i := IndexOf(s, id);
    if i < |s| then Without(s, i) else s
  }

  /** `wake_ready_locked` from position `i` of the queue on. */
  ghost function Wake(g: Gate, i: nat): Gate
    requires i <= |g.waiters| && forall k | 0 <= k < |g.waiters| :: g.waiters[k] in g.ops
    decreases |g.waiters| - i
  {
    if i == |g.waiters| then g
    else
      var id := g.waiters[i];
      if !Admissible(g, g.ops[id].keys) then Wake(g, i + 1)
      else Wake(Claim(g.(waiters := Without(g.waiters, i)), id), i)
  }

  function GateKeys(first: Key, second: Key): seq<Key>
  {
    if second != "" && second != first then [first, second] else [first]
  }

  /** `acquire_key_gate`; `ok` says whether the wait could be set up. */
  ghost function Acquire(g: Gate, id: nat, first: Key, second: Key, wait: bool, ok: bool): (Gate, Outcome)
  {
    var keys := GateKeys(first, second);
    var t := g.(ops := g.ops[id := Op(keys, false, false)]);
    if Admissible(g, keys) then (Claim(t, id), Active)
    else if !wait || !ok then (t, Failed)
    else (t.(ops := t.ops[id := Op(keys, false, true)], waiters := t.waiters + [id]), Queued)
  }

  /** Give back whatever the operation has: its place in the queue or its keys. */
  function Withdraw(g: Gate, id: nat): (u: Gate)
    requires id in g.ops
    ensures u.ops.Keys == g.ops.Keys
  {
    var t := if g.ops[id].waiting then Dequeue(g, id) else g;
    if t.ops[id].held then Release(t, id) else t
  }

  /** `abandon_key_gate` and `release_key_gate`. */
  ghost function Abandon(g: Gate, id: nat): Gate
    requires id in g.ops && Inv(g)
  {
    WithdrawQueue(g, id);
    if g.ops[id].held then Wake(Withdraw(g, id), 0) else Withdraw(g, id)
  }

  /** `queued_ready` when the wait failed. */
  ghost function WaitFailed(g: Gate, id: nat): Gate
    requires id in g.ops && Inv(g)
  {
    WithdrawQueue(g, id);
    Wake(Withdraw(g, id), 0)
  }

  // ---------------------------------------------------------------- invariants

  ghost predicate Free(g: Gate, i: nat, j: nat)
    requires i in g.ops && j in g.ops
  {
    forall a, b | a in g.ops[i].keys && b in g.ops[j].keys :: !Conflict(a, b)
  }

  /** Holders never conflict, and the keys in use are exactly theirs. */
  ghost predicate Exclusive(g: Gate)
  {
    && (forall i, j | i in g.ops && j in g.ops && i != j && g.ops[i].held && g.ops[j].held :: Free(g, i, j))
    && (forall k :: k in g.inUse <==> exists i :: i in g.ops && g.ops[i].held && k in g.ops[i].keys)
  }

  /** The queue holds exactly the waiting operations, once each. */
  ghost predicate Queue(g: Gate)
  {
    && (forall j, k | 0 <= j < k < |g.waiters| :: g.waiters[j] != g.waiters[k])
    && (forall k | 0 <= k < |g.waiters| :: g.waiters[k] in g.ops)
    && (forall i | i in g.ops :: g.ops[i].waiting <==> i in g.waiters)
    && (forall i | i in g.ops :: !(g.ops[i].waiting && g.ops[i].held))
  }

  /** Waiters before position `n` conflict with a key in use. */
  ghost predicate Blocked(g: Gate, n: nat)
  {
    forall k | 0 <= k < n && k < |g.waiters| && g.waiters[k] in g.ops :: !Admissible(g, g.ops[g.waiters[k]].keys)
  }

  ghost predicate Inv(g: Gate) { Exclusive(g) && Queue(g) && Blocked(g, |g.waiters|) }

  lemma RemovedShape(s: seq<nat>, id: nat)
    requires forall j, k | 0 <= j < k < |s| :: s[j] != s[k]
    ensures var r := Removed(s, id);
            && (forall x :: x in r <==> x in s && x != id)
            && (forall j, k | 0 <= j < k < |r| :: r[j] != r[k])
  {
    var i := IndexOf(s, id);
    if i < |s| {
      WithoutDistinct(s, i);
      forall x: nat ensures x in Without(s, i) <==> x in s && x != id { WithoutMember(s, i, x); }
    }
  }

  lemma WithdrawQueue(g: Gate, id: nat)
    requires Queue(g) && id in g.ops
    ensures Queue(Withdraw(g, id))
    ensures !Withdraw(g, id).ops[id].waiting && !Withdraw(g, id).ops[id].held
    ensures forall i | i in g.ops && i != id :: Withdraw(g, id).ops[i] == g.ops[i]
    ensures forall i :: i in Withdraw(g, id).waiters <==> i in g.waiters && i != id
  {
    RemovedShape(g.waiters, id);
    var u := Withdraw(g, id);
    if g.ops[id].waiting {
      assert u.waiters == Removed(g.waiters, id);
      forall k | 0 <= k < |u.waiters| ensures u.waiters[k] in u.ops { assert u.waiters[k] in Removed(g.waiters, id); }
    }
  }

  /** The keys of the others stay, its own are free. */
  lemma WithdrawExclusive(g: Gate, id: nat)
    requires Exclusive(g) && Queue(g) && id in g.ops
    ensures Exclusive(Withdraw(g, id))
  {
    WithdrawQueue(g, id);
    var u := Withdraw(g, id);
    assert u.ops[id].keys == g.ops[id].keys;
    forall i, j | i in u.ops && j in u.ops && i != j && u.ops[i].held && u.ops[j].held ensures Free(u, i, j) {
      assert Free(g, i, j);
    }
    forall k ensures k in u.inUse <==> exists i :: i in u.ops && u.ops[i].held && k in u.ops[i].keys {
      if k in u.inUse {
        var i :| i in g.ops && g.ops[i].held && k in g.ops[i].keys;
        assert i != id && u.ops[i] == g.ops[i];
      }
      if i :| i in u.ops && u.ops[i].held && k in u.ops[i].keys {
        assert i != id && i in g.ops && g.ops[i].held && k in g.ops[i].keys;
        if g.ops[id].held && k in g.ops[id].keys {
          assert Free(g, i, id);
          assert Conflict(k, k);
        }
      }
    }
  }

  /** An available operation joins the holders. */
  lemma ClaimKeeps(g: Gate, id: nat)
    requires Exclusive(g) && id in g.ops && !g.ops[id].held && Admissible(g, g.ops[id].keys)
    ensures Exclusive(Claim(g, id))
  {
    var t := Claim(g, id);
    forall i, j | i in t.ops && j in t.ops && i != j && t.ops[i].held && t.ops[j].held ensures Free(t, i, j) {
      forall a, b | a in t.ops[i].keys && b in t.ops[j].keys ensures !Conflict(a, b) {
        ConflictSymmetric(a, b);
        if i == id {
          assert b in g.inUse;
        } else if j == id {
          assert a in g.inUse;
        } else {
          assert Free(g, i, j);
        }
      }
    }
    forall k ensures k in t.inUse <==> exists i :: i in t.ops && t.ops[i].held && k in t.ops[i].keys {
      if k in g.inUse {
        var i :| i in g.ops && g.ops[i].held && k in g.ops[i].keys;
        assert i in t.ops && t.ops[i].held && k in t.ops[i].keys;
      }
      if k in g.ops[id].keys { assert id in t.ops && t.ops[id].held && k in t.ops[id].keys; }
    }
  }

  /** Keys in use only grow during a wake, so who was blocked stays blocked. */
  lemma StaysBlocked(g: Gate, t: Gate, keys: seq<Key>)
    requires !Admissible(g, keys) && g.inUse <= t.inUse
    ensures !Admissible(t, keys)
  {
    var i, k :| 0 <= i < |keys| && k in g.inUse && Conflict(k, keys[i]);
    assert k in t.inUse;
  }

  lemma WakeOne(g: Gate, i: nat)
    requires Exclusive(g) && Queue(g) && Blocked(g, i) && i < |g.waiters| && Admissible(g, g.ops[g.waiters[i]].keys)
    ensures var t := Claim(g.(waiters := Without(g.waiters, i)), g.waiters[i]);
            Exclusive(t) && Queue(t) && Blocked(t, i)
  {
    var id := g.waiters[i];
    var h := g.(waiters := Without(g.waiters, i));
    assert g.ops[id].waiting;
    assert Exclusive(h);
    ClaimKeeps(h, id);
    var t := Claim(h, id);
    WakeQueue(g, i);
    forall k | 0 <= k < i && k < |t.waiters| ensures !Admissible(t, t.ops[t.waiters[k]].keys) {
      assert t.waiters[k] == g.waiters[k] && g.waiters[k] != id;
      StaysBlocked(g, t, g.ops[g.waiters[k]].keys);
    }
  }

  lemma WithoutMember(s: seq<nat>, i: nat, x: nat)
    requires i < |s| && forall j, k | 0 <= j < k < |s| :: s[j] != s[k]
    ensures x in Without(s, i) <==> x in s && x != s[i]
  {
    var r := Without(s, i);
    if k :| 0 <= k < |s| && s[k] == x && k != i { assert r[if k < i then k else k - 1] == x; }
    if k :| 0 <= k < |r| && r[k] == x { assert s[if k < i then k else k + 1] == x; }
  }

  lemma WithoutDistinct(s: seq<nat>, i: nat)
    requires i < |s| && forall j, k | 0 <= j < k < |s| :: s[j] != s[k]
    ensures var r := Without(s, i); forall j, k | 0 <= j < k < |r| :: r[j] != r[k]
  {
    var r := Without(s, i);
    forall j, k | 0 <= j < k < |r| ensures r[j] != r[k] {
      var j0, k0 := if j < i then j else j + 1, if k < i then k else k + 1;
      assert r[j] == s[j0] && r[k] == s[k0];
    }
  }

  lemma WakeQueue(g: Gate, i: nat)
    requires Queue(g) && i < |g.waiters|
    ensures Queue(Claim(g.(waiters := Without(g.waiters, i)), g.waiters[i]))
  {
    var id, r := g.waiters[i], Without(g.waiters, i);
    var t := Claim(g.(waiters := r), id);
    WithoutDistinct(g.waiters, i);
    forall x: nat ensures x in r <==> x in g.waiters && x != id { WithoutMember(g.waiters, i, x); }
    assert forall k | 0 <= k < |r| :: r[k] in r;
    hide Without;
  }

  /** After a wake every remaining waiter conflicts with a key in use. */
  lemma {:induction false} WakeKeepsInv(g: Gate, i: nat)
    requires Exclusive(g) && Queue(g) && Blocked(g, i) && i <= |g.waiters|
    ensures Inv(Wake(g, i))
    decreases |g.waiters| - i
  {
    if i < |g.waiters| {
      if Admissible(g, g.ops[g.waiters[i]].keys) {
        WakeOne(g, i);
        WakeKeepsInv(Claim(g.(waiters := Without(g.waiters, i)), g.waiters[i]), i);
      } else {
        WakeKeepsInv(g, i + 1);
      }
    }
  }

  // ---------------------------------------------------------------- operations and runs

  lemma AcquireKeepsInv(g: Gate, id: nat, first: Key, second: Key, wait: bool, ok: bool)
    requires Inv(g) && (id in g.ops ==> !g.ops[id].held && !g.ops[id].waiting)
    ensures Inv(Acquire(g, id, first, second, wait, ok).0)
  {
    var keys := GateKeys(first, second);
    var t := g.(ops := g.ops[id := Op(keys, false, false)]);
    IdleOpKeeps(g, id, keys);
    if Admissible(g, keys) {
      ClaimKeeps(t, id);
      var u := Claim(t, id);
      forall k | 0 <= k < |u.waiters| ensures !Admissible(u, u.ops[u.waiters[k]].keys) {
        assert u.waiters[k] != id;
        StaysBlocked(t, u, t.ops[t.waiters[k]].keys);
      }
      assert Queue(u);
    } else if wait && ok {
      EnqueueKeeps(t, id);
    }
  }

  lemma IdleOpKeeps(g: Gate, id: nat, keys: seq<Key>)
    requires Inv(g) && (id in g.ops ==> !g.ops[id].held && !g.ops[id].waiting)
    ensures Inv(g.(ops := g.ops[id := Op(keys, false, false)])) && id !in g.waiters
  {
    var t := g.(ops := g.ops[id := Op(keys, false, false)]);
    assert id !in g.waiters;
    forall i, j | i in t.ops && j in t.ops && i != j && t.ops[i].held && t.ops[j].held ensures Free(t, i, j) {
      assert Free(g, i, j);
    }
    forall k ensures k in t.inUse <==> exists i :: i in t.ops && t.ops[i].held && k in t.ops[i].keys {
      if i :| i in g.ops && g.ops[i].held && k in g.ops[i].keys { assert t.ops[i] == g.ops[i]; }
      if i :| i in t.ops && t.ops[i].held && k in t.ops[i].keys { assert t.ops[i] == g.ops[i]; }
    }
    forall k | 0 <= k < |t.waiters| ensures !Admissible(t, t.ops[t.waiters[k]].keys) {
      assert !Admissible(g, g.ops[g.waiters[k]].keys);
      StaysBlocked(g, t, g.ops[g.waiters[k]].keys);
    }
  }

  lemma EnqueueKeeps(t: Gate, id: nat)
    requires Inv(t) && id in t.ops && !t.ops[id].held && !t.ops[id].waiting && id !in t.waiters
    requires !Admissible(t, t.ops[id].keys)
    ensures Inv(t.(ops := t.ops[id := t.ops[id].(waiting := true)], waiters := t.waiters + [id]))
  {
    var u := t.(ops := t.ops[id := t.ops[id].(waiting := true)], waiters := t.waiters + [id]);
    forall i, j | i in u.ops && j in u.ops && i != j && u.ops[i].held && u.ops[j].held ensures Free(u, i, j) {
      assert Free(t, i, j);
    }
    forall k ensures k in u.inUse <==> exists i :: i in u.ops && u.ops[i].held && k in u.ops[i].keys {
      if i :| i in t.ops && t.ops[i].held && k in t.ops[i].keys { assert u.ops[i] == t.ops[i]; }
      if i :| i in u.ops && u.ops[i].held && k in u.ops[i].keys { assert u.ops[i] == t.ops[i]; }
    }
    forall k | 0 <= k < |u.waiters| ensures !Admissible(u, u.ops[u.waiters[k]].keys) {
      var x := u.waiters[k];
      assert u.ops[x].keys == t.ops[x].keys;
      if k < |t.waiters| { assert !Admissible(t, t.ops[t.waiters[k]].keys); }
      StaysBlocked(t, u, t.ops[x].keys);
    }
    assert Queue(u);
  }

  lemma WithdrawKeeps(g: Gate, id: nat)
    requires Inv(g) && id in g.ops
    ensures Exclusive(Withdraw(g, id)) && Queue(Withdraw(g, id))
    ensures !g.ops[id].held ==> Inv(Withdraw(g, id))
  {
    WithdrawQueue(g, id);
    WithdrawExclusive(g, id);
    var u := Withdraw(g, id);
    if !g.ops[id].held {
      forall k | 0 <= k < |u.waiters| ensures !Admissible(u, u.ops[u.waiters[k]].keys) {
        assert u.waiters[k] in u.waiters;
        var j :| 0 <= j < |g.waiters| && g.waiters[j] == u.waiters[k];
        assert !Admissible(g, g.ops[g.waiters[j]].keys);
        StaysBlocked(g, u, g.ops[g.waiters[j]].keys);
      }
    }
  }

  lemma AbandonKeepsInv(g: Gate, id: nat)
    requires Inv(g) && id in g.ops
    ensures Inv(Abandon(g, id)) && Inv(WaitFailed(g, id))
  {
    WithdrawKeeps(g, id);
    WakeKeepsInv(Withdraw(g, id), 0);
  }

  datatype Event =
    | Ask(id: nat, first: Key, second: Key, wait: bool, ok: bool)
    | Leave(id: nat)
    | Fail(id: nat)

  /** Operations ask once at a time, and only known ones leave. */
  predicate Enabled(g: Gate, event: Event)
  {
    match event
    case Ask(id, _, _, _, _) => id in g.ops ==> !g.ops[id].held && !g.ops[id].waiting
    case Leave(id) => id in g.ops
    case Fail(id) => id in g.ops
  }

  ghost function Apply(g: Gate, event: Event): Gate
    requires Inv(g) && Enabled(g, event)
  {
    match event
    case Ask(id, first, second, wait, ok) => Acquire(g, id, first, second, wait, ok).0
    case Leave(id) => Abandon(g, id)
    case Fail(id) => WaitFailed(g, id)
  }

  lemma StepKeepsInv(g: Gate, event: Event)
    requires Inv(g) && Enabled(g, event)
    ensures Inv(Apply(g, event))
  {
    match event
    case Ask(id, first, second, wait, ok) => AcquireKeepsInv(g, id, first, second, wait, ok);
    case Leave(id) => AbandonKeepsInv(g, id);
    case Fail(id) => AbandonKeepsInv(g, id);
  }

  ghost predicate Allowed(g: Gate, events: seq<Event>)
    requires Inv(g)
    decreases |events|
  {
    events == [] || (Enabled(g, events[0]) && (StepKeepsInv(g, events[0]); Allowed(Apply(g, events[0]), events[1..])))
  }

  ghost function Run(g: Gate, events: seq<Event>): Gate
    requires Inv(g) && Allowed(g, events)
    decreases |events|
  {
    if events == [] then g else StepKeepsInv(g, events[0]); Run(Apply(g, events[0]), events[1..])
  }

  lemma {:induction false} RunKeepsInv(g: Gate, events: seq<Event>)
    requires Inv(g) && Allowed(g, events)
    ensures Inv(Run(g, events))
    decreases |events|
  {
    if events != [] {
      StepKeepsInv(g, events[0]);
      hide Inv, Enabled, Apply;
      RunKeepsInv(Apply(g, events[0]), events[1..]);
    }
  }

  function Closed(): (g: Gate)
    ensures Inv(g)
  {
    Gate(map[], {}, [])
  }

  /** Safety and progress of the gate in every run: keys of different holders never share a path, the keys in
      use are exactly the holders' keys, every waiter conflicts with some holder, and without holders nobody waits. */
  lemma GateIsSafeAndLive(events: seq<Event>)
    requires Allowed(Closed(), events)
    ensures var g := Run(Closed(), events);
            && (forall i, j | i in g.ops && j in g.ops && i != j && g.ops[i].held && g.ops[j].held :: Free(g, i, j))
            && (forall k :: k in g.inUse <==> exists i :: i in g.ops && g.ops[i].held && k in g.ops[i].keys)
            && (forall k | 0 <= k < |g.waiters| :: HeldUp(g, g.waiters[k]))
            && ((forall i | i in g.ops :: !g.ops[i].held) ==> g.waiters == [])
  {
    RunKeepsInv(Closed(), events);
    var g := Run(Closed(), events);
    hide Run, Allowed;
    forall k | 0 <= k < |g.waiters| ensures HeldUp(g, g.waiters[k]) { WaiterHasHolder(g, k); }
    if g.waiters != [] { assert HeldUp(g, g.waiters[0]); }
  }

  /** Some holder's keys conflict with those of operation `id`. */
  ghost predicate HeldUp(g: Gate, id: nat)
  {
    id in g.ops && exists h :: h in g.ops && g.ops[h].held && !Free(g, h, id)
  }

  lemma WaiterHasHolder(g: Gate, k: nat)
    requires Inv(g) && k < |g.waiters|
    ensures HeldUp(g, g.waiters[k])
  {
    var w := g.waiters[k];
    assert !Admissible(g, g.ops[w].keys);
    var i, key :| 0 <= i < |g.ops[w].keys| && key in g.inUse && Conflict(key, g.ops[w].keys[i]);
    var h :| h in g.ops && g.ops[h].held && key in g.ops[h].keys;
    assert g.ops[w].keys[i] in g.ops[w].keys;
    assert !Free(g, h, w);
  }

  // ---------------------------------------------------------------- what was asked for

  /** The names of the last request of operation `id`. */
  function Asked(events: seq<Event>, id: nat): set<Key>
  {
    if events == [] then {}
    else
      var last := events[|events| - 1];
      if last.Ask? && last.id == id then {last.first} + (if last.second == "" then {} else {last.second})
      else Asked(events[..|events| - 1], id)
  }

  /** One name lies on the path of the other. */
  predicate SharePath(a: Key, b: Key) { Components(a) <= Components(b) || Components(b) <= Components(a) }

  lemma {:induction false} RunLast(g: Gate, events: seq<Event>)
    requires Inv(g) && Allowed(g, events) && events != []
    ensures var n := |events| - 1;
            && Allowed(g, events[..n]) && Inv(Run(g, events[..n])) && Enabled(Run(g, events[..n]), events[n])
            && Run(g, events) == Apply(Run(g, events[..n]), events[n])
    decreases |events|
  {
    hide Inv, Enabled, Apply;
    var n := |events| - 1;
    StepKeepsInv(g, events[0]);
    if n > 0 {
      RunLast(Apply(g, events[0]), events[1..]);
      assert events[1..][..n - 1] == events[..n][1..] && events[..n][0] == events[0];
    }
  }

  /** `t` has the operations of `g`, with the keys they had. */
  ghost predicate SameKeys(g: Gate, t: Gate)
  {
    t.ops.Keys == g.ops.Keys && forall i | i in g.ops :: t.ops[i].keys == g.ops[i].keys
  }

  lemma {:induction false} WakeSameKeys(g: Gate, i: nat)
    requires i <= |g.waiters| && forall k | 0 <= k < |g.waiters| :: g.waiters[k] in g.ops
    ensures SameKeys(g, Wake(g, i))
    ensures forall j | j in g.ops && j !in g.waiters :: Wake(g, i).ops[j] == g.ops[j]
    decreases |g.waiters| - i
  {
    if i < |g.waiters| {
      var id := g.waiters[i];
      if Admissible(g, g.ops[id].keys) {
        var t := Claim(g.(waiters := Without(g.waiters, i)), id);
        assert t.ops.Keys == g.ops.Keys;
        assert forall j | j in t.waiters :: j in g.waiters;
        WakeSameKeys(t, i);
      } else {
        WakeSameKeys(g, i + 1);
      }
    }
  }

  /** Who waits longest goes first: the first waiter whose keys are free is woken. */
  lemma {:induction false} FirstFreeGoes(g: Gate, i: nat, k: nat)
    requires Queue(g) && i <= k < |g.waiters| && Admissible(g, g.ops[g.waiters[k]].keys)
    requires forall j | i <= j < k :: !Admissible(g, g.ops[g.waiters[j]].keys)
    ensures g.waiters[k] in Wake(g, i).ops && Wake(g, i).ops[g.waiters[k]].held
    decreases k - i
  {
    if i < k {
      FirstFreeGoes(g, i + 1, k);
    } else {
      WakeQueue(g, k);
      WithoutMember(g.waiters, k, g.waiters[k]);
      WakeSameKeys(Claim(g.(waiters := Without(g.waiters, k)), g.waiters[k]), k);
    }
  }

  /** Leaving and failing keep what everybody asked for, and the operation has nothing afterwards. */
  lemma LeaveClears(g: Gate, id: nat)
    requires Inv(g) && id in g.ops
    ensures SameKeys(g, Abandon(g, id)) && SameKeys(g, WaitFailed(g, id))
    ensures !Abandon(g, id).ops[id].held && !Abandon(g, id).ops[id].waiting
    ensures !WaitFailed(g, id).ops[id].held && !WaitFailed(g, id).ops[id].waiting
  {
    WithdrawQueue(g, id);
    WithdrawSameKeys(g, id);
    WakeSameKeys(Withdraw(g, id), 0);
    hide Wake, Withdraw;
  }

  lemma WithdrawSameKeys(g: Gate, id: nat)
    requires id in g.ops
    ensures SameKeys(g, Withdraw(g, id))
  {
  }

  /** Every operation's keys are the names of its last request. */
  ghost predicate KeysAsAsked(g: Gate, events: seq<Event>)
  {
    forall i | i in g.ops :: KeySet(g.ops[i].keys) == Asked(events, i)
  }

  lemma StepAsAsked(g: Gate, events: seq<Event>)
    requires Inv(g) && events != [] && Enabled(g, events[|events| - 1]) && KeysAsAsked(g, events[..|events| - 1])
    ensures KeysAsAsked(Apply(g, events[|events| - 1]), events)
  {
    match events[|events| - 1]
    case Ask(_, _, _, _, _) =>
    case Leave(id) => LeaveClears(g, id);
    case Fail(id) => LeaveClears(g, id);
  }

  lemma {:induction false} RunAsAsked(events: seq<Event>)
    requires Allowed(Closed(), events)
    ensures KeysAsAsked(Run(Closed(), events), events)
    decreases |events|
  {
    if events != [] {
      RunLast(Closed(), events);
      RunAsAsked(events[..|events| - 1]);
      hide Inv, Enabled, Apply, KeysAsAsked, Run, Allowed;
      StepAsAsked(Run(Closed(), events[..|events| - 1]), events);
    }
  }

  lemma KeySetMember(keys: seq<Key>, k: Key)
    ensures k in keys <==> k in KeySet(keys)
  {
  }

  /** In every run, by what was asked for: a holder has every name it asked for in use, and nothing else is in use; names
      of two holders never lie on each other's paths; and a waiter has asked for a name on the path of a holder's. */
  lemma GateKeepsToTheNames(events: seq<Event>)
    requires Allowed(Closed(), events)
    ensures var g := Run(Closed(), events);
            && (forall k :: k in g.inUse <==> exists i :: i in g.ops && g.ops[i].held && k in Asked(events, i))
            && (forall i, j, a, b | i in g.ops && j in g.ops && i != j && g.ops[i].held && g.ops[j].held &&
                  a in Asked(events, i) && b in Asked(events, j) :: !SharePath(a, b))
            && (forall k | 0 <= k < |g.waiters| :: StandsBehind(g, events, g.waiters[k]))
  {
    RunAsAsked(events);
    RunKeepsInv(Closed(), events);
    var g := Run(Closed(), events);
    hide Run, Allowed;
    NamesInUse(g, events);
    NamesApart(g, events);
    forall k | 0 <= k < |g.waiters| ensures StandsBehind(g, events, g.waiters[k]) { NamesHeldUp(g, events, k); }
  }

  /** Operation `w` has asked for a name on the path of one that a holder asked for. */
  ghost predicate StandsBehind(g: Gate, events: seq<Event>, w: nat)
  {
    exists h, a, b :: h in g.ops && g.ops[h].held && a in Asked(events, h) && b in Asked(events, w) && SharePath(a, b)
  }

  lemma NamesInUse(g: Gate, events: seq<Event>)
    requires Inv(g) && KeysAsAsked(g, events)
    ensures forall k :: k in g.inUse <==> exists i :: i in g.ops && g.ops[i].held && k in Asked(events, i)
  {
    hide Asked;
    forall k ensures k in g.inUse <==> exists i :: i in g.ops && g.ops[i].held && k in Asked(events, i) {
      if k in g.inUse {
        var i :| i in g.ops && g.ops[i].held && k in g.ops[i].keys;
        KeySetMember(g.ops[i].keys, k);
        assert i in g.ops && g.ops[i].held && k in Asked(events, i);
      }
      if i :| i in g.ops && g.ops[i].held && k in Asked(events, i) {
        KeySetMember(g.ops[i].keys, k);
        assert i in g.ops && g.ops[i].held && k in g.ops[i].keys;
      }
    }
  }

  lemma NamesApart(g: Gate, events: seq<Event>)
    requires Inv(g) && KeysAsAsked(g, events)
    ensures forall i, j, a, b | i in g.ops && j in g.ops && i != j && g.ops[i].held && g.ops[j].held &&
              a in Asked(events, i) && b in Asked(events, j) :: !SharePath(a, b)
  {
    hide Asked;
    forall i, j, a, b | i in g.ops && j in g.ops && i != j && g.ops[i].held && g.ops[j].held &&
        a in Asked(events, i) && b in Asked(events, j)
      ensures !SharePath(a, b)
    {
      KeySetMember(g.ops[i].keys, a);
      KeySetMember(g.ops[j].keys, b);
      assert Free(g, i, j);
      ConflictIffPathPrefix(a, b);
    }
  }

  lemma NamesHeldUp(g: Gate, events: seq<Event>, k: nat)
    requires Inv(g) && KeysAsAsked(g, events) && k < |g.waiters|
    ensures StandsBehind(g, events, g.waiters[k])
  {
    hide Asked;
    WaiterHasHolder(g, k);
    var w := g.waiters[k];
    var h :| h in g.ops && g.ops[h].held && !Free(g, h, w);
    var a, b :| a in g.ops[h].keys && b in g.ops[w].keys && Conflict(a, b);
    KeySetMember(g.ops[h].keys, a);
    KeySetMember(g.ops[w].keys, b);
    ConflictIffPathPrefix(a, b);
    assert h in g.ops && g.ops[h].held && a in Asked(events, h) && b in Asked(events, w) && SharePath(a, b);
  }

  /** No holder has asked for a name on the path of `name`. */
  ghost predicate Unshared(g: Gate, events: seq<Event>, name: Key)
  {
    forall h, a | h in g.ops && g.ops[h].held && a in Asked(events, h) :: !SharePath(a, name)
  }

  /** A request after any run is admitted if and only if none of its names shares a path with a name that a holder asked
      for. Otherwise it waits if it may and can, and fails if not. Admitted, it holds; waiting, it is last in the queue. */
  lemma AskIsAnswered(events: seq<Event>, id: nat, first: Key, second: Key, wait: bool, ok: bool)
    requires Allowed(Closed(), events) && Enabled(Run(Closed(), events), Ask(id, first, second, wait, ok))
    ensures var g := Run(Closed(), events);
            var (t, outcome) := Acquire(g, id, first, second, wait, ok);
            var free := Unshared(g, events, first) && (second == "" || Unshared(g, events, second));
            && outcome == (if free then Active else if wait && ok then Queued else Failed)
            && id in t.ops && (t.ops[id].held <==> free) && (t.ops[id].waiting <==> outcome == Queued)
            && t.waiters == (if outcome == Queued then g.waiters + [id] else g.waiters)
  {
    RunAsAsked(events);
    RunKeepsInv(Closed(), events);
    var g := Run(Closed(), events);
    hide Run, Allowed;
    NamesInUse(g, events);
    NameFree(g, events, first);
    NameFree(g, events, second);
    hide Asked, Inv, Conflict, Unshared, KeysAsAsked;
    var keys := GateKeys(first, second);
    assert Admissible(g, keys) <==> forall n | n in keys :: FreeName(g, n);
  }

  ghost predicate FreeName(g: Gate, name: Key) { forall k | k in g.inUse :: !Conflict(k, name) }

  lemma NameFree(g: Gate, events: seq<Event>, name: Key)
    requires forall k :: k in g.inUse <==> exists i :: i in g.ops && g.ops[i].held && k in Asked(events, i)
    ensures FreeName(g, name) <==> Unshared(g, events, name)
  {
    hide Asked;
    if FreeName(g, name) {
      forall h, a | h in g.ops && g.ops[h].held && a in Asked(events, h) ensures !SharePath(a, name) {
        assert a in g.inUse;
        ConflictIffPathPrefix(a, name);
      }
    }
    if Unshared(g, events, name) {
      forall k | k in g.inUse ensures !Conflict(k, name) {
        var i :| i in g.ops && g.ops[i].held && k in Asked(events, i);
        assert !SharePath(k, name);
        ConflictIffPathPrefix(k, name);
      }
    }
  }

  // ---------------------------------------------------------------- the source's loops

  lemma BlockedNone(g: Gate)
    ensures Blocked(g, 0)
  {
  }

  lemma BlockedNext(g: Gate, i: nat)
    requires Blocked(g, i) && i < |g.waiters| && g.waiters[i] in g.ops && !Admissible(g, g.ops[g.waiters[i]].keys)
    ensures Blocked(g, i + 1)
  {
  }

  lemma QueueKnown(g: Gate)
    requires Queue(g)
    ensures forall k | 0 <= k < |g.waiters| :: g.waiters[k] in g.ops
  {
  }

  lemma InvFrom(g: Gate)
    requires Exclusive(g) && Queue(g) && Blocked(g, |g.waiters|)
    ensures Inv(g)
  {
  }

  /** The cache's side of the gate, updated in place under its mutex. */
  class KeyTable {
    var ops: map<nat, Op>
    var inUse: set<Key>
    var waiters: seq<nat>

    ghost function Value(): Gate
      reads this
    {
      Gate(ops, inUse, waiters)
    }

    constructor ()
      ensures Value() == Closed() && Inv(Value())
    {
      ops, inUse, waiters := map[], {}, [];
    }

    method IsAvailable(keys: seq<Key>) returns (free: bool)
      ensures free <==> Admissible(Value(), keys)
    {
      var i := 0;
      while i < |keys|
        invariant 0 <= i <= |keys|
        invariant forall j, k | 0 <= j < i && k in inUse :: !Conflict(k, keys[j])
      {
        var rest := inUse;
        while rest != {}
          invariant rest <= inUse
          invariant forall k | k in inUse - rest :: !Conflict(k, keys[i])
          decreases |rest|
        {
          var active :| active in rest;
          if Conflict(active, keys[i]) {
            return false;
          }
          rest := rest - {active};
        }
        i := i + 1;
      }
      return true;
    }

    method ClaimGate(id: nat)
      requires id in ops
      modifies this
      ensures Value() == Claim(old(Value()), id)
    {
      var i, before := 0, inUse;
      var keys := ops[id].keys;
      while i < |keys|
        invariant 0 <= i <= |keys|
        invariant inUse == before + set j | 0 <= j < i :: keys[j]
        invariant ops == old(ops) && waiters == old(waiters)
      {
        inUse := inUse + {keys[i]};
        i := i + 1;
      }
      assert KeySet(keys) == set j | 0 <= j < |keys| :: keys[j];
      ops := ops[id := ops[id].(held := true, waiting := false)];
    }

    method ReleaseGate(id: nat)
      requires id in ops
      modifies this
      ensures Value() == Release(old(Value()), id)
    {
      var i, before := 0, inUse;
      var keys := ops[id].keys;
      while i < |keys|
        invariant 0 <= i <= |keys|
        invariant inUse == before - set j | 0 <= j < i :: keys[j]
        invariant ops == old(ops) && waiters == old(waiters)
      {
        inUse := inUse - {keys[i]};
        i := i + 1;
      }
      assert KeySet(keys) == set j | 0 <= j < |keys| :: keys[j];
      ops := ops[id := ops[id].(held := false)];
    }

    /** Admits every waiter that no longer conflicts, in queue order, and returns them. */
    method WakeReady() returns (woken: seq<nat>)
      requires Exclusive(Value()) && Queue(Value())
      modifies this
      ensures Value() == Wake(old(Value()), 0)
      ensures Inv(Value())
    {
      hide Exclusive, Queue, Blocked, Admissible, KeySet, Inv;
      var i := 0;
      woken := [];
      ghost var was := Value();
      BlockedNone(was);
      QueueKnown(was);
      while i < |waiters|
        invariant 0 <= i <= |waiters|
        invariant forall k | 0 <= k < |waiters| :: waiters[k] in ops
        invariant Exclusive(Value()) && Queue(Value()) && Blocked(Value(), i)
        invariant Wake(Value(), i) == Wake(was, 0)
        decreases |waiters| - i
      {
        var candidate := waiters[i];
        var free := IsAvailable(ops[candidate].keys);
        if !free {
          BlockedNext(Value(), i);
          i := i + 1;
        } else {
          WakeOne(Value(), i);
          waiters := Without(waiters, i);
          ClaimGate(candidate);
          woken := woken + [candidate];
          QueueKnown(Value());
        }
      }
      InvFrom(Value());
    }

    method Enter(id: nat, first: Key, second: Key, wait: bool, ok: bool) returns (outcome: Outcome)
      requires Inv(Value()) && (id in ops ==> !ops[id].held && !ops[id].waiting)
      modifies this
      ensures (Value(), outcome) == Acquire(old(Value()), id, first, second, wait, ok)
      ensures Inv(Value())
    {
      ghost var g := Value();
      AcquireKeepsInv(g, id, first, second, wait, ok);
      hide Inv, Conflict;
      var keys := [first];
      if second != "" && second != first {
        keys := keys + [second];
      }
      assert keys == GateKeys(first, second);
      ops := ops[id := Op(keys, false, false)];
      assert Value() == g.(ops := g.ops[id := Op(keys, false, false)]);
      assert Admissible(Value(), keys) == Admissible(g, keys);
      var free := IsAvailable(keys);
      if free {
        ClaimGate(id);
        return Active;
      }
      if !wait || !ok {
        return Failed;
      }
      ops := ops[id := ops[id].(waiting := true)];
      waiters := waiters + [id];
      return Queued;
    }

    method EraseWaiter(id: nat)
      requires id in ops
      modifies this
      ensures Value() == Dequeue(old(Value()), id)
    {
      var i := 0;
      while i < |waiters| && waiters[i] != id
        invariant 0 <= i <= |waiters|
        invariant forall k | 0 <= k < i :: waiters[k] != id
      {
        i := i + 1;
      }
      assert i == IndexOf(waiters, id);
      if i < |waiters| {
        waiters := Without(waiters, i);
      }
      ops := ops[id := ops[id].(waiting := false)];
    }

    /** `abandon_key_gate`, also used to release. */
    method Leave(id: nat)
      requires Inv(Value()) && id in ops
      modifies this
      ensures Value() == Abandon(old(Value()), id) && Inv(Value())
    {
      AbandonKeepsInv(Value(), id);
      WithdrawKeeps(Value(), id);
      if ops[id].waiting {
        EraseWaiter(id);
      }
      if ops[id].held {
        ReleaseGate(id);
        var woken := WakeReady();
      }
    }

    /** `queued_ready` with a wait that did not deliver. */
    method WaitFails(id: nat)
      requires Inv(Value()) && id in ops
      modifies this
      ensures Value() == WaitFailed(old(Value()), id) && Inv(Value())
    {
      WithdrawKeeps(Value(), id);
      if ops[id].waiting {
        EraseWaiter(id);
      }
      if ops[id].held {
        ReleaseGate(id);
      }
      var woken := WakeReady();
    }
  }
}
