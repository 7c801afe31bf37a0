/** What survives a crash: the user's files and the records that make file effects repeatable
    (apps/daemon/src/tools/runtime/idempotencyStore.ts). Every durable change is one `Action`, and a
    crash keeps a prefix of the actions an operation performs. */
module Disk {
  import opened Common

  type Path = string

  /** An idempotency key. Keys are UUIDs, so each has a cache file of its own. */
  type Key = string

  type Files = map<Path, Bytes>

  datatype FileTool = FsAppend | FsCopy | FsMove

  datatype Status = Prepared | Applied

  datatype Output = Output(size: nat, hash: Digest)

  datatype Record = Record(
    tool: FileTool, key: Key, status: Status, source: Option<Path>, target: Path,
    contentHash: Digest, beforeHash: Option<Digest>, afterHash: Digest, output: Output)

  /** One append log for each target, one log each for copies and moves, and a cache file per key. */
  datatype Store = Store(
    appendLogs: map<Path, seq<Record>>, copyLog: seq<Record>, moveLog: seq<Record>, cache: map<(FileTool, Key), Record>)

  datatype World = World(files: Files, store: Store)

  datatype Action =
    | AppendLog(record: Record)
    | WriteCache(record: Record)
    | WriteFile(path: Path, contents: Bytes)
    | Rename(from: Path, to: Path)

  function AppendLogAt(store: Store, target: Path): seq<Record> {
    if target in store.appendLogs then store.appendLogs[target] else []
  }

  function Logging(s: Store, r: Record): Store {
    match r.tool
    case FsAppend => s.(appendLogs := s.appendLogs[r.target := AppendLogAt(s, r.target) + [r]])
    case FsCopy => s.(copyLog := s.copyLog + [r])
    case FsMove => s.(moveLog := s.moveLog + [r])
  }

  function Caching(s: Store, r: Record): Store {
    s.(cache := s.cache[(r.tool, r.key) := r])
  }

  /** Renaming a file onto itself changes nothing. */
  function Renaming(files: Files, from: Path, to: Path): Files {
    if from !in files || from == to then files else (files - {from})[to := files[from]]
  }

  function Do(w: World, a: Action): World {
    match a
    case AppendLog(r) => w.(store := Logging(w.store, r))
    case WriteCache(r) => w.(store := Caching(w.store, r))
    case WriteFile(path, contents) => w.(files := w.files[path := contents])
    case Rename(from, to) => w.(files := Renaming(w.files, from, to))
  }

  function DoAll(w: World, actions: seq<Action>): World
    decreases |actions|
  {
    if actions == [] then w else DoAll(Do(w, actions[0]), actions[1..])
  }

  lemma {:induction false} DoConcat(w: World, a: seq<Action>, b: seq<Action>)
    ensures DoAll(w, a + b) == DoAll(DoAll(w, a), b)
    decreases |a|
  {
    if a == [] {
      assert a + b == b;
    } else {
      assert (a + b)[1..] == a[1..] + b;
      DoConcat(Do(w, a[0]), a[1..], b);
    }
  }

  lemma DoOne(w: World, a: Action)
    ensures DoAll(w, [a]) == Do(w, a)
  {
    assert DoAll(Do(w, a), []) == Do(w, a);
  }

  lemma DoTwo(w: World, a: Action, b: Action)
    ensures DoAll(w, [a, b]) == Do(Do(w, a), b)
  {
    assert [a, b][1..] == [b];
    DoOne(Do(w, a), b);
  }

  /** What a crash leaves of the actions: the first `keep` of them. */
  function Cut(actions: seq<Action>, keep: nat): seq<Action> {
    if keep < |actions| then actions[..keep] else actions
  }

  lemma CutConcat(a: seq<Action>, b: seq<Action>, keep: nat)
    ensures keep <= |a| ==> Cut(a + b, keep) == Cut(a, keep)
    ensures keep > |a| ==> Cut(a + b, keep) == a + Cut(b, keep - |a|)
  {
    if keep == |a| {
      assert Cut(a + b, keep) == a;
    }
  }

  /** The disk. Its history lists every durable action in the order performed. */
  class Drive {
    var files: Files
    var store: Store
    ghost var history: seq<Action>

    constructor (files: Files)
      ensures Now() == World(files, Store(map[], [], [], map[])) && history == []
    {
      this.files := files;
      store := Store(map[], [], [], map[]);
      history := [];
    }

    function Now(): World
      reads this
    {
      World(files, store)
    }

    method Perform(a: Action)
      modifies this
      ensures Now() == Do(old(Now()), a) && history == old(history) + [a]
    {
      match a {
        case AppendLog(r) => store := Logging(store, r);
        case WriteCache(r) => store := Caching(store, r);
        case WriteFile(path, contents) => files := files[path := contents];
        case Rename(from, to) => files := Renaming(files, from, to);
      }
      history := history + [a];
    }
  }
}
