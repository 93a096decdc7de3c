/** The cache directory tree behaves as a flat map from keys to files.

    A key is a path of file names. When a longer key arrives, a file on its way is promoted:
    it becomes a directory and the old file moves inside under a reserved name. A promotion is
    a series of file-system calls with a rollback. It is invisible to lookups unless it stops
    between moving the file away and moving it in or back.
 */
module CacheTree {
  import opened CacheNames
  import opened KeyGate

  datatype Node = File(id: nat) | Dir(children: map<Name, Node>)

  type Directory = map<Name, Node>

  datatype Option<T> = None | Some(value: T)

  /** Names of components: none is the reserved name of a promoted file or of one under promotion. */
  predicate IsPath(path: seq<Name>) { |path| > 0 && forall i | 0 <= i < |path| :: path[i] != VALUE && !(PROMOTE <= path[i]) }

  // ---------------------------------------------------------------- operations

  /** `cache_find_leaf`. */
  function Find(dir: Directory, path: seq<Name>): Option<nat>
    requires |path| > 0
    decreases |path|
  {
    var name := path[0];
    if name !in dir then None
    else if |path| == 1 then
      match dir[name]
      case File(id) => Some(id)
      case Dir(children) => if VALUE in children && children[VALUE].File? then Some(children[VALUE].id) else None
    else
      match dir[name]
      case File(_) => None
      case Dir(children) => Find(children, path[1..])
  }

  /** The directory that a component on the way leads to: made, promoted or just opened. */
  function Enter(dir: Directory, name: Name): Directory
  {
    if name !in dir then map[]
    else
      match dir[name]
      case File(id) => map[VALUE := File(id)]
      case Dir(children) => children
  }

  /** The first `steps` directory steps of `cache_leaf`, each of them completed. */
  function Prepare(dir: Directory, path: seq<Name>, steps: nat): Directory
    requires |path| > 0
    decreases |path|
  {
    if |path| == 1 || steps == 0 then dir
    else dir[path[0] := Dir(Prepare(Enter(dir, path[0]), path[1..], steps - 1))]
  }

  /** Creating file `id` at the leaf that `cache_leaf` returned. */
  function Place(dir: Directory, path: seq<Name>, id: nat): Directory
    requires |path| > 0
    decreases |path|
  {
    var name := path[0];
    if |path| > 1 then dir[name := Dir(Place(Enter(dir, name), path[1..], id))]
    else if name in dir && dir[name].Dir? then dir[name := Dir(dir[name].children[VALUE := File(id)])]
    else dir[name := File(id)]
  }

  /** Unlinking the file that a lookup found. */
  function Erase(dir: Directory, path: seq<Name>): Directory
    requires |path| > 0
    decreases |path|
  {
    var name := path[0];
    if name !in dir then dir
    else if |path| == 1 then
      match dir[name]
      case File(_) => dir - {name}
      case Dir(children) => dir[name := Dir(children - {VALUE})]
    else
      match dir[name]
      case File(_) => dir
      case Dir(children) => dir[name := Dir(Erase(children, path[1..]))]
  }

  // ---------------------------------------------------------------- lookups see a map

  lemma FindEntered(dir: Directory, name: Name, path: seq<Name>)
    requires IsPath([name] + path) && |path| > 0
    ensures Find(Enter(dir, name), path) == Find(dir, [name] + path)
  {
    assert ([name] + path)[1..] == path;
    assert path[0] == ([name] + path)[1];
  }

  lemma PrepareTop(dir: Directory, path: seq<Name>, steps: nat)
    requires IsPath(path)
    ensures VALUE in Prepare(dir, path, steps) <==> VALUE in dir
    ensures VALUE in dir ==> Prepare(dir, path, steps)[VALUE] == dir[VALUE]
  {
  }

  /** Resolving a key for creation, even when it stops between two components, changes no lookup. */
  lemma {:induction false} PrepareIsInvisible(dir: Directory, path: seq<Name>, steps: nat, q: seq<Name>)
    requires IsPath(path) && IsPath(q)
    ensures Find(Prepare(dir, path, steps), q) == Find(dir, q)
    decreases |path|
  {
    if |path| > 1 && steps > 0 && q[0] == path[0] {
      var sub := Enter(dir, path[0]);
      assert IsPath(path[1..]);
      if |q| == 1 {
        PrepareTop(sub, path[1..], steps - 1);
      } else {
        assert IsPath(q[1..]) && q == [q[0]] + q[1..];
        PrepareIsInvisible(sub, path[1..], steps - 1, q[1..]);
        FindEntered(dir, q[0], q[1..]);
      }
    }
  }

  lemma PlaceTop(dir: Directory, path: seq<Name>, id: nat)
    requires IsPath(path)
    ensures VALUE in Place(dir, path, id) <==> VALUE in dir
    ensures VALUE in dir ==> Place(dir, path, id)[VALUE] == dir[VALUE]
  {
  }

  /** Creation stores under its own key and nowhere else. */
  lemma {:induction false} PlaceIsExact(dir: Directory, path: seq<Name>, id: nat, q: seq<Name>)
    requires IsPath(path) && IsPath(q)
    ensures Find(Place(dir, path, id), q) == if q == path then Some(id) else Find(dir, q)
    decreases |path|
  {
    if q[0] == path[0] {
      assert q == [q[0]] + q[1..] && path == [path[0]] + path[1..];
      if |path| > 1 {
        var sub := Enter(dir, path[0]);
        assert IsPath(path[1..]);
        if |q| == 1 {
          PlaceTop(sub, path[1..], id);
        } else {
          assert IsPath(q[1..]);
          PlaceIsExact(sub, path[1..], id, q[1..]);
          FindEntered(dir, q[0], q[1..]);
        }
      } else if |q| > 1 {
        PlaceLeafKeeps(dir, path[0], id, q[1..]);
      }
    }
  }

  /** A new leaf leaves deeper lookups alone. */
  lemma PlaceLeafKeeps(dir: Directory, name: Name, id: nat, rest: seq<Name>)
    requires name != VALUE && IsPath(rest)
    ensures Find(Place(dir, [name], id), [name] + rest) == Find(dir, [name] + rest)
  {
    assert ([name] + rest)[1..] == rest;
  }

  lemma {:induction false} EraseIsExact(dir: Directory, path: seq<Name>, q: seq<Name>)
    requires IsPath(path) && IsPath(q)
    ensures Find(Erase(dir, path), q) == if q == path then None else Find(dir, q)
    decreases |path|
  {
    if q[0] == path[0] && path[0] in dir {
      assert q == [q[0]] + q[1..] && path == [path[0]] + path[1..];
      if |path| > 1 && dir[path[0]].Dir? {
        var sub := dir[path[0]].children;
        assert IsPath(path[1..]);
        if |q| == 1 {
          EraseTop(sub, path[1..]);
        } else {
          assert IsPath(q[1..]);
          EraseIsExact(sub, path[1..], q[1..]);
        }
      } else if |path| == 1 && |q| > 1 {
        EraseLeafKeeps(dir, path[0], q[1..]);
      }
    }
  }

  lemma EraseTop(dir: Directory, path: seq<Name>)
    requires IsPath(path)
    ensures VALUE in Erase(dir, path) <==> VALUE in dir
    ensures VALUE in dir ==> Erase(dir, path)[VALUE] == dir[VALUE]
  {
  }

  lemma EraseLeafKeeps(dir: Directory, name: Name, rest: seq<Name>)
    requires name != VALUE && IsPath(rest)
    ensures Find(Erase(dir, [name]), [name] + rest) == Find(dir, [name] + rest)
  {
    assert ([name] + rest)[1..] == rest;
  }

  // ---------------------------------------------------------------- one promotion, call by call

  datatype Call = MoveAway | MakeDir | OpenDir | MoveIn | RemoveDir | MoveBack

  /** What the calls so far have left: the file in place, only under its temporary name, the same beside an empty
      directory, or inside the directory. */
  datatype Shape = Before | Gap | Hollow | Inside

  datatype Next = Do(call: Call) | Finished | GaveUp

  /** `log` are the calls made, each with whether it succeeded. */
  datatype Promotion = Promotion(shape: Shape, next: Next, log: seq<(Call, bool)>)

  const BEGIN: Promotion := Promotion(Before, Do(MoveAway), [])

  /** What the file system can answer: there is no empty directory to remove before it is made, and a file does not
      replace a directory. */
  predicate Possible(p: Promotion, ok: bool)
  {
    p.next.Do? && (ok && p.next.call == RemoveDir ==> p.shape == Hollow) && (ok && p.next.call == MoveBack ==> p.shape == Gap)
  }

  /** `cache_promote_file`: the next call, with its result. The errors of the rollback are ignored. */
  function Made(p: Promotion, ok: bool): Promotion
    requires Possible(p, ok)
  {
    var log := p.log + [(p.next.call, ok)];
    match p.next.call
    case MoveAway => if ok then Promotion(Gap, Do(MakeDir), log) else Promotion(Before, GaveUp, log)
    case MakeDir => if ok then Promotion(Hollow, Do(OpenDir), log) else Promotion(Gap, Do(RemoveDir), log)
    case OpenDir => Promotion(Hollow, Do(if ok then MoveIn else RemoveDir), log)
    case MoveIn => if ok then Promotion(Inside, Finished, log) else Promotion(Hollow, Do(RemoveDir), log)
    case RemoveDir => Promotion(if ok then Gap else p.shape, Do(MoveBack), log)
    case MoveBack => Promotion(if ok then Before else p.shape, GaveUp, log)
  }

  /** A promotion after calls with these results, if the file system can answer so. */
  function Calls(oks: seq<bool>): Option<Promotion>
  {
    if oks == [] then Some(BEGIN)
    else
      var ok := oks[|oks| - 1];
      match Calls(oks[..|oks| - 1])
      case None => None
      case Some(p) => if Possible(p, ok) then Some(Made(p, ok)) else None
  }

  /** The promotion stopped, or was stopped, after calls with these results. */
  predicate Reached(p: Promotion, oks: seq<bool>) { Calls(oks) == Some(p) }

  /** Stopped after the file was moved away and before it was moved in or back. */
  predicate Stranded(p: Promotion)
  {
    (MoveAway, true) in p.log && (MoveIn, true) !in p.log && (MoveBack, true) !in p.log
  }

  predicate ShapeShows(p: Promotion)
  {
    && (p.shape == Gap || p.shape == Hollow <==> Stranded(p))
    && (p.next == Do(MoveAway) ==> p.shape == Before && p.log == [])
    && (p.next == Do(MakeDir) ==> p.shape == Gap)
    && (p.next == Do(OpenDir) || p.next == Do(MoveIn) ==> p.shape == Hollow)
    && (p.next == Do(RemoveDir) || p.next == Do(MoveBack) ==> p.shape == Gap || p.shape == Hollow)
  }

  lemma MadeShows(p: Promotion, ok: bool)
    requires ShapeShows(p) && Possible(p, ok)
    ensures ShapeShows(Made(p, ok))
  {
    var log := Made(p, ok).log;
    assert forall c: (Call, bool) :: c in log <==> c in p.log || c == (p.next.call, ok);
  }

  lemma {:induction false} ReachedShows(p: Promotion, oks: seq<bool>)
    requires Reached(p, oks)
    ensures ShapeShows(p)
    decreases |oks|
  {
    if oks != [] {
      var q := Calls(oks[..|oks| - 1]).value;
      ReachedShows(q, oks[..|oks| - 1]);
      MadeShows(q, oks[|oks| - 1]);
    }
  }

  /** The end of the log of a promotion that ran until there was nothing more to do. */
  predicate EndShows(p: Promotion)
  {
    && (p.next == Finished ==> (MoveIn, true) in p.log)
    && (p.next != Finished ==> (MoveIn, true) !in p.log)
    && (p.next != GaveUp ==> (MoveBack, true) !in p.log && (MoveBack, false) !in p.log)
    && (p.next == GaveUp && (MoveAway, true) in p.log ==> ((MoveBack, true) in p.log <==> (MoveBack, false) !in p.log))
    && ((MoveBack, false) in p.log ==> (MoveAway, true) in p.log)
    && (p.next == Do(MakeDir) || p.next == Do(MoveAway) ==> (MakeDir, true) !in p.log)
    && (p.next == Do(MoveBack) || p.next == GaveUp ==>
          (MakeDir, true) in p.log ==> (RemoveDir, true) in p.log || (RemoveDir, false) in p.log)
  }

  lemma {:induction false} ReachedEnds(p: Promotion, oks: seq<bool>)
    requires Reached(p, oks)
    ensures EndShows(p)
    decreases |oks|
  {
    if oks != [] {
      var q, ok := Calls(oks[..|oks| - 1]).value, oks[|oks| - 1];
      ReachedEnds(q, oks[..|oks| - 1]);
      ReachedShows(q, oks[..|oks| - 1]);
      assert forall c: (Call, bool) :: c in p.log <==> c in q.log || c == (q.next.call, ok);
    }
  }

  /** A promotion that ran to its end succeeded if and only if the file was moved in, and it leaves the file under its
      temporary name if and only if moving it back was tried and failed: after a failed mkdir, as after any failure
      that follows it, the file is moved back, and a directory that was made is removed first. */
  lemma PromotionRollsBack(p: Promotion, oks: seq<bool>)
    requires Reached(p, oks) && !p.next.Do?
    ensures p.next == Finished <==> (MoveIn, true) in p.log
    ensures Stranded(p) <==> p.next == GaveUp && (MoveBack, false) in p.log
    ensures p.next == GaveUp && (MakeDir, true) in p.log ==> (RemoveDir, true) in p.log || (RemoveDir, false) in p.log
  {
    ReachedEnds(p, oks);
    ReachedShows(p, oks);
  }

  /** A directory with file `id` at `name`, after the calls of a promotion. */
  function Left(dir: Directory, name: Name, temporary: Name, id: nat, p: Promotion): Directory
  {
    match p.shape
    case Before => if (MoveAway, true) in p.log then dir - {temporary} else dir
    case Gap => (dir - {name})[temporary := File(id)]
    case Hollow => dir[name := Dir(map[])][temporary := File(id)]
    case Inside => (dir - {temporary})[name := Dir(map[VALUE := File(id)])]
  }

  /** Component `steps` of the path is a file that has to be promoted. */
  predicate Promotes(dir: Directory, path: seq<Name>, steps: nat)
    requires |path| > 0
    decreases |path|
  {
    |path| > 1 && if steps == 0 then path[0] in dir && dir[path[0]].File? else Promotes(Enter(dir, path[0]), path[1..], steps - 1)
  }

  /** `cache_leaf` stopped at component `steps`, in the middle of its promotion if it has one. */
  function Stopped(dir: Directory, path: seq<Name>, steps: nat, temporary: Name, p: Promotion): Directory
    requires |path| > 0
    decreases |path|
  {
    if |path| == 1 then dir
    else if steps == 0 then
      if path[0] in dir && dir[path[0]].File? then Left(dir, path[0], temporary, dir[path[0]].id, p) else dir
    else dir[path[0] := Dir(Stopped(Enter(dir, path[0]), path[1..], steps - 1, temporary, p))]
  }

  lemma LeftIsExact(dir: Directory, name: Name, temporary: Name, p: Promotion, q: seq<Name>)
    requires name in dir && dir[name].File? && IsPath([name]) && IsPath(q) && PROMOTE <= temporary && ShapeShows(p)
    ensures Find(Left(dir, name, temporary, dir[name].id, p), q) == if Stranded(p) && q == [name] then None else Find(dir, q)
  {
    assert [name][0] == name && !(PROMOTE <= name) && !(PROMOTE <= q[0]);
    if q[0] == name && |q| > 1 { assert q[1..][0] == q[1]; }
  }

  lemma StoppedTop(dir: Directory, path: seq<Name>, steps: nat, temporary: Name, p: Promotion)
    requires IsPath(path) && PROMOTE <= temporary
    ensures VALUE in Stopped(dir, path, steps, temporary, p) <==> VALUE in dir
    ensures VALUE in dir ==> Stopped(dir, path, steps, temporary, p)[VALUE] == dir[VALUE]
  {
    assert PROMOTE[|PREFIX|] == 'p' && VALUE[|PREFIX|] == 'v';
  }

  lemma SamePrefix(q: seq<Name>, path: seq<Name>, steps: nat)
    requires 0 < steps < |path| && |q| > 0 && q[0] == path[0]
    ensures q == path[..steps + 1] <==> q[1..] == path[1..][..steps]
  {
    assert q == [q[0]] + q[1..] && path[..steps + 1] == [path[0]] + path[1..][..steps];
  }

  /** A stop anywhere changes at most one lookup: that of the file under promotion, when it is stranded. */
  lemma {:induction false} StoppedIsExact(dir: Directory, path: seq<Name>, steps: nat, temporary: Name, p: Promotion,
                                          q: seq<Name>)
    requires IsPath(path) && IsPath(q) && PROMOTE <= temporary && ShapeShows(p)
    ensures Find(Stopped(dir, path, steps, temporary, p), q) ==
            if Promotes(dir, path, steps) && Stranded(p) && steps < |path| && q == path[..steps + 1] then None else Find(dir, q)
    decreases |path|
  {
    if |path| > 1 {
      if steps == 0 {
        assert path[..1] == [path[0]];
        if path[0] in dir && dir[path[0]].File? { LeftIsExact(dir, path[0], temporary, p, q); }
      } else {
        var sub := Enter(dir, path[0]);
        assert IsPath(path[1..]);
        PromotesInside(dir, path, steps);
        if q[0] == path[0] {
          if |q| == 1 {
            StoppedTop(sub, path[1..], steps - 1, temporary, p);
          } else {
            assert IsPath(q[1..]) && q == [q[0]] + q[1..];
            StoppedIsExact(sub, path[1..], steps - 1, temporary, p, q[1..]);
            FindEntered(dir, q[0], q[1..]);
            if steps < |path| { SamePrefix(q, path, steps); }
          }
        } else if steps < |path| {
          assert q != path[..steps + 1];
        }
      }
    }
  }

  /** A file under promotion is found before it. */
  lemma {:induction false} PromotesInside(dir: Directory, path: seq<Name>, steps: nat)
    requires IsPath(path)
    ensures Promotes(dir, path, steps) ==> steps + 1 < |path| && Find(dir, path[..steps + 1]).Some?
    decreases |path|
  {
    if |path| > 1 {
      if steps == 0 {
        assert path[..1] == [path[0]];
      } else if Promotes(dir, path, steps) {
        assert IsPath(path[1..]);
        PromotesInside(Enter(dir, path[0]), path[1..], steps - 1);
        assert path[..steps + 1] == [path[0]] + path[1..][..steps];
        FindEntered(dir, path[0], path[1..][..steps]);
      }
    }
  }

  /** Resolving a key, stopped after any calls with any results, leaves every lookup as it was if and only if it did not
      stop with a file moved away and neither moved in nor back. */
  lemma StopIsInvisibleIff(dir: Directory, path: seq<Name>, steps: nat, temporary: Name, p: Promotion, oks: seq<bool>)
    requires IsPath(path) && PROMOTE <= temporary && Reached(p, oks)
    ensures (forall q | IsPath(q) :: Find(Stopped(dir, path, steps, temporary, p), q) == Find(dir, q)) <==>
            !(Promotes(dir, path, steps) && Stranded(p))
  {
    ReachedShows(p, oks);
    PromotesInside(dir, path, steps);
    forall q | IsPath(q)
      ensures Find(Stopped(dir, path, steps, temporary, p), q) ==
              if Promotes(dir, path, steps) && Stranded(p) && steps < |path| && q == path[..steps + 1] then None else Find(dir, q)
    {
      StoppedIsExact(dir, path, steps, temporary, p, q);
    }
    if Promotes(dir, path, steps) && Stranded(p) {
      assert IsPath(path[..steps + 1]);
    }
  }

  /** A stop after the first call: the key is gone and its file sits under the temporary name. */
  lemma StrandedFile() returns (p: Promotion, temporary: Name)
    ensures Reached(p, [true]) && PROMOTE <= temporary
    ensures var before: Directory := map["a" := File(1)];
            var after := Stopped(before, ["a", "b"], 0, temporary, p);
            Find(before, ["a"]) == Some(1) && Find(after, ["a"]) == None && temporary in after && after[temporary] == File(1)
  {
    temporary := PROMOTE;
    p := Made(BEGIN, true);
    assert [true][..0] == [];
    assert Reached(BEGIN, []);
  }

  // ---------------------------------------------------------------- keys and paths

  /** Encoded component names, or nothing when a name does not fit. */
  function Names(components: seq<string>, nameMax: nat, sha: string -> string): Option<seq<Name>>
    requires forall i | 0 <= i < |components| :: IsBytes(components[i])
  {
    if components == [] then Some([])
    else
      var e := EncodeComponent(components[0], nameMax, sha(components[0]));
      var rest := Names(components[1..], nameMax, sha);
      if e.TooLong? || rest.None? then None else Some([e.name] + rest.value)
  }

  function Join(components: seq<string>): string
  {
    if |components| == 0 then "" else if |components| == 1 then components[0]
    else components[0] + "/" + Join(components[1..])
  }

  /** The components determine the key. */
  lemma {:induction false} JoinComponents(key: Key)
    ensures Join(Components(key)) == key
  {
    if key != "" {
      JoinComponents(key[1..]);
      var c, rest := Components(key), Components(key[1..]);
      if key[0] == '/' {
        assert c[1..] == rest;
        assert Join(c) == "" + "/" + Join(rest);
      } else {
        assert c[0] == [key[0]] + rest[0] && c[1..] == rest[1..];
        if |rest| > 1 { assert Join(c) == c[0] + "/" + Join(rest[1..]); }
        assert Join(c) == [key[0]] + Join(rest);
      }
    }
  }

  lemma {:induction false} ComponentBytes(key: Key)
    requires IsBytes(key)
    ensures forall i | 0 <= i < |Components(key)| :: IsBytes(Components(key)[i])
  {
    if key != "" {
      assert IsBytes(key[1..]);
      ComponentBytes(key[1..]);
      var rest := Components(key[1..]);
      assert IsBytes([key[0]] + rest[0]);
    }
  }

  function PathOf(key: Key, nameMax: nat, sha: string -> string): Option<seq<Name>>
    requires IsBytes(key)
  {
    ComponentBytes(key);
    Names(Components(key), nameMax, sha)
  }

  lemma {:induction false} NamesArePath(components: seq<string>, nameMax: nat, sha: string -> string)
    requires forall i | 0 <= i < |components| :: IsBytes(components[i])
    ensures var n := Names(components, nameMax, sha);
            n.Some? ==> |n.value| == |components| && forall i | 0 <= i < |n.value| :: n.value[i] != VALUE && !(PROMOTE <= n.value[i])
  {
    if components != [] {
      NamesArePath(components[1..], nameMax, sha);
      ReservedNames(components[0], nameMax, sha(components[0]));
    }
  }

  /** No two different components that need a digest share one. */
  predicate Collides(s: string, t: string, nameMax: nat, sha: string -> string)
    requires IsBytes(s) && IsBytes(t)
  {
    && s != t && EncodeComponent(s, nameMax, sha(s)).Hashed? && EncodeComponent(t, nameMax, sha(t)).Hashed?
    && sha(s) == sha(t)
  }

  lemma {:induction false} NamesDiffer(c: seq<string>, d: seq<string>, nameMax: nat, sha: string -> string)
    requires forall i | 0 <= i < |c| :: IsBytes(c[i])
    requires forall i | 0 <= i < |d| :: IsBytes(d[i])
    requires forall i | 0 <= i < |c| && i < |d| :: !Collides(c[i], d[i], nameMax, sha)
    requires Names(c, nameMax, sha).Some? && Names(c, nameMax, sha) == Names(d, nameMax, sha)
    ensures c == d
  {
    NamesArePath(c, nameMax, sha);
    NamesArePath(d, nameMax, sha);
    if c != [] {
      var n := Names(c, nameMax, sha).value;
      SameNameIff(c[0], d[0], nameMax, sha(c[0]), sha(d[0]));
      assert n[1..] == Names(c[1..], nameMax, sha).value && n[1..] == Names(d[1..], nameMax, sha).value;
      NamesDiffer(c[1..], d[1..], nameMax, sha);
      assert c == [c[0]] + c[1..] && d == [d[0]] + d[1..];
    }
  }

  ghost predicate Distinct(k: Key, l: Key, nameMax: nat, sha: string -> string)
    requires IsBytes(k) && IsBytes(l)
  {
    ComponentBytes(k);
    ComponentBytes(l);
    forall i | 0 <= i < |Components(k)| && i < |Components(l)| :: !Collides(Components(k)[i], Components(l)[i], nameMax, sha)
  }

  /** Different keys have different paths, unless digests collide. */
  lemma PathsDiffer(k: Key, l: Key, nameMax: nat, sha: string -> string)
    requires IsBytes(k) && IsBytes(l) && k != l && Distinct(k, l, nameMax, sha)
    requires PathOf(k, nameMax, sha).Some? && PathOf(l, nameMax, sha).Some?
    ensures PathOf(k, nameMax, sha) != PathOf(l, nameMax, sha)
  {
    ComponentBytes(k);
    ComponentBytes(l);
    if PathOf(k, nameMax, sha) == PathOf(l, nameMax, sha) {
      NamesDiffer(Components(k), Components(l), nameMax, sha);
      JoinComponents(k);
      JoinComponents(l);
    }
  }

  // ---------------------------------------------------------------- the flat map

  /** What happens to the tree: a store under a key, an unlink, the resolution of a key up to some component, or one that
      stops in the middle of a promotion. */
  datatype Change =
    | Store(key: Key, id: nat)
    | Unlink(key: Key)
    | Resolve(key: Key, steps: nat)
    | Stop(key: Key, steps: nat, temporary: Name, p: Promotion)

  /** The keys under consideration: each has a path, and no two share one. */
  ghost predicate Usable(keys: set<Key>, nameMax: nat, sha: string -> string)
  {
    && (forall k | k in keys :: IsBytes(k) && PathOf(k, nameMax, sha).Some?)
    && (forall k, l | k in keys && l in keys && k != l :: Distinct(k, l, nameMax, sha))
  }

  lemma UsablePath(keys: set<Key>, k: Key, nameMax: nat, sha: string -> string)
    requires Usable(keys, nameMax, sha) && k in keys
    ensures PathOf(k, nameMax, sha).Some? && IsPath(PathOf(k, nameMax, sha).value)
  {
    ComponentBytes(k);
    NamesArePath(Components(k), nameMax, sha);
  }

  ghost function Changed(dir: Directory, c: Change, keys: set<Key>, nameMax: nat, sha: string -> string): Directory
    requires Usable(keys, nameMax, sha) && c.key in keys
  {
    UsablePath(keys, c.key, nameMax, sha);
    var path := PathOf(c.key, nameMax, sha).value;
    match c
    case Store(_, id) => Place(Prepare(dir, path, |path|), path, id)
    case Unlink(_) => Erase(dir, path)
    case Resolve(_, steps) => Prepare(dir, path, steps)
    case Stop(_, steps, temporary, p) => Stopped(dir, path, steps, temporary, p)
  }

  ghost predicate Real(c: Change)
  {
    c.Stop? ==> PROMOTE <= c.temporary && exists oks :: Reached(c.p, oks)
  }

  /** The change is a stop that strands the file of this key. */
  ghost predicate Loses(dir: Directory, c: Change, k: Key, keys: set<Key>, nameMax: nat, sha: string -> string)
    requires Usable(keys, nameMax, sha) && c.key in keys && k in keys
  {
    UsablePath(keys, c.key, nameMax, sha);
    var path := PathOf(c.key, nameMax, sha).value;
    && c.Stop? && Promotes(dir, path, c.steps) && Stranded(c.p) && c.steps < |path|
    && PathOf(k, nameMax, sha).value == path[..c.steps + 1]
  }

  ghost function MapChanged(m: map<Key, nat>, dir: Directory, c: Change, keys: set<Key>, nameMax: nat,
                            sha: string -> string): map<Key, nat>
    requires Usable(keys, nameMax, sha) && c.key in keys
  {
    match c
    case Store(k, id) => m[k := id]
    case Unlink(k) => m - {k}
    case Resolve(_, _) => m
    case Stop(_, _, _, _) => map k | k in m && !(k in keys && Loses(dir, c, k, keys, nameMax, sha)) :: m[k]
  }

  ghost predicate Refines(dir: Directory, m: map<Key, nat>, keys: set<Key>, nameMax: nat, sha: string -> string)
    requires Usable(keys, nameMax, sha)
  {
    forall k | k in keys :: Looks(dir, k, nameMax, sha) == if k in m then Some(m[k]) else None
  }

  ghost function Looks(dir: Directory, k: Key, nameMax: nat, sha: string -> string): Option<nat>
    requires IsBytes(k) && PathOf(k, nameMax, sha).Some?
  {
    var path := PathOf(k, nameMax, sha).value;
    if |path| > 0 then Find(dir, path) else None
  }

  lemma ChangeRefines(dir: Directory, m: map<Key, nat>, c: Change, keys: set<Key>, nameMax: nat, sha: string -> string)
    requires Usable(keys, nameMax, sha) && Refines(dir, m, keys, nameMax, sha) && c.key in keys && Real(c)
    ensures Refines(Changed(dir, c, keys, nameMax, sha), MapChanged(m, dir, c, keys, nameMax, sha), keys, nameMax, sha)
  {
    UsablePath(keys, c.key, nameMax, sha);
    var path := PathOf(c.key, nameMax, sha).value;
    var dir', m' := Changed(dir, c, keys, nameMax, sha), MapChanged(m, dir, c, keys, nameMax, sha);
    forall k | k in keys ensures Looks(dir', k, nameMax, sha) == if k in m' then Some(m'[k]) else None {
      UsablePath(keys, k, nameMax, sha);
      var q := PathOf(k, nameMax, sha).value;
      if k != c.key { PathsDiffer(k, c.key, nameMax, sha); }
      assert Looks(dir, k, nameMax, sha) == if k in m then Some(m[k]) else None;
      match c
      case Store(_, id) =>
        PlaceIsExact(Prepare(dir, path, |path|), path, id, q);
        PrepareIsInvisible(dir, path, |path|, q);
      case Unlink(_) => EraseIsExact(dir, path, q);
      case Resolve(_, steps) => PrepareIsInvisible(dir, path, steps, q);
      case Stop(_, steps, temporary, p) =>
        var oks :| Reached(p, oks);
        ReachedShows(p, oks);
        StoppedIsExact(dir, path, steps, temporary, p, q);
    }
  }

  ghost function AllChanged(dir: Directory, cs: seq<Change>, keys: set<Key>, nameMax: nat, sha: string -> string): Directory
    requires Usable(keys, nameMax, sha) && forall i | 0 <= i < |cs| :: cs[i].key in keys
    decreases |cs|
  {
    if cs == [] then dir else AllChanged(Changed(dir, cs[0], keys, nameMax, sha), cs[1..], keys, nameMax, sha)
  }

  ghost function AllMapChanged(m: map<Key, nat>, dir: Directory, cs: seq<Change>, keys: set<Key>, nameMax: nat,
                               sha: string -> string): map<Key, nat>
    requires Usable(keys, nameMax, sha) && forall i | 0 <= i < |cs| :: cs[i].key in keys
    decreases |cs|
  {
    if cs == [] then m
    else
      AllMapChanged(MapChanged(m, dir, cs[0], keys, nameMax, sha), Changed(dir, cs[0], keys, nameMax, sha), cs[1..], keys,
                    nameMax, sha)
  }

  /** Any sequence of changes answers every lookup as a map would that loses exactly the keys whose files are stranded. */
  lemma {:induction false} TreeFollowsMap(dir: Directory, m: map<Key, nat>, cs: seq<Change>, keys: set<Key>, nameMax: nat,
                                          sha: string -> string)
    requires Usable(keys, nameMax, sha) && Refines(dir, m, keys, nameMax, sha)
    requires forall i | 0 <= i < |cs| :: cs[i].key in keys && Real(cs[i])
    ensures Refines(AllChanged(dir, cs, keys, nameMax, sha), AllMapChanged(m, dir, cs, keys, nameMax, sha), keys, nameMax, sha)
    decreases |cs|
  {
    if cs != [] {
      ChangeRefines(dir, m, cs[0], keys, nameMax, sha);
      TreeFollowsMap(Changed(dir, cs[0], keys, nameMax, sha), MapChanged(m, dir, cs[0], keys, nameMax, sha), cs[1..], keys,
                     nameMax, sha);
    }
  }

  /** The plain map: stores and unlinks, and nothing else. */
  function Plainly(m: map<Key, nat>, cs: seq<Change>): map<Key, nat>
    decreases |cs|
  {
    if cs == [] then m
    else Plainly(match cs[0] { case Store(k, id) => m[k := id] case Unlink(k) => m - {k} case _ => m }, cs[1..])
  }

  lemma {:induction false} NothingLost(dir: Directory, m: map<Key, nat>, cs: seq<Change>, keys: set<Key>, nameMax: nat,
                                       sha: string -> string)
    requires Usable(keys, nameMax, sha) && forall i | 0 <= i < |cs| :: cs[i].key in keys && !(cs[i].Stop? && Stranded(cs[i].p))
    ensures AllMapChanged(m, dir, cs, keys, nameMax, sha) == Plainly(m, cs)
    decreases |cs|
  {
    if cs != [] {
      var m' := MapChanged(m, dir, cs[0], keys, nameMax, sha);
      if cs[0].Stop? { assert m' == m; }
      NothingLost(Changed(dir, cs[0], keys, nameMax, sha), m', cs[1..], keys, nameMax, sha);
    }
  }

  /** From an empty tree, any sequence of stores, unlinks and interrupted resolutions, none of which stops with a file
      moved away, answers every lookup as a plain map would. */
  lemma TreeRefinesFlatMap(cs: seq<Change>, keys: set<Key>, nameMax: nat, sha: string -> string)
    requires Usable(keys, nameMax, sha)
    requires forall i | 0 <= i < |cs| :: cs[i].key in keys && Real(cs[i]) && !(cs[i].Stop? && Stranded(cs[i].p))
    ensures Refines(AllChanged(map[], cs, keys, nameMax, sha), Plainly(map[], cs), keys, nameMax, sha)
  {
    assert Refines(map[], map[], keys, nameMax, sha);
    TreeFollowsMap(map[], map[], cs, keys, nameMax, sha);
    NothingLost(map[], map[], cs, keys, nameMax, sha);
  }
}
