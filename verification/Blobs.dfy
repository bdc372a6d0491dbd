/** The content-addressed blob directory. */
module Blobs {
  import opened Options

  /** How os.WriteFile ends: all bytes written, no file created, or an error (or
      a crash) with only the first bytes in the file. */
  datatype Writing = Whole | NotOpened | Torn(bytes: nat)

  type Dir = map<string, string>

  datatype Op = Put(data: string, writing: Writing) | Delete(id: string, removed: bool)

  function FileAfter(data: string, w: Writing): Option<string> {
    match w
    case Whole => Some(data)
    case NotOpened => None
    case Torn(n) => Some(if n < |data| then data[..n] else data)
  }

  function Do(dir: Dir, hash: string -> string, op: Op): Dir {
    match op
    case Put(data, w) =>
      if hash(data) in dir then dir else
      var file := FileAfter(data, w);
      if file.Some? then dir[hash(data) := file.value] else dir
    case Delete(id, removed) => if removed then dir - {id} else dir
  }

  function Run(dir: Dir, hash: string -> string, ops: seq<Op>): Dir
    decreases |ops|
  {
    if ops == [] then dir else Do(Run(dir, hash, ops[..|ops| - 1]), hash, ops[|ops| - 1])
  }

  class BlobStore {
    var dir: Dir
    const hash: string -> string

    constructor (hash: string -> string)
      ensures dir == map[] && this.hash == hash
    {
      this.hash := hash;
      dir := map[];
    }

    /** The id, unless the write fails. */
    method Put(data: string, w: Writing) returns (id: Option<string>)
      modifies this
      ensures dir == Do(old(dir), hash, Op.Put(data, w))
      ensures id == if hash(data) in old(dir) || w == Whole then Some(hash(data)) else None
    {
      var key := hash(data);
      if key in dir {
        return Some(key);
      }
      var file := FileAfter(data, w);
      if file.Some? {
        dir := dir[key := file.value];
      }
      id := if w == Whole then Some(key) else None;
    }

    method Get(id: string) returns (data: Option<string>)
      ensures data == if id in dir then Some(dir[id]) else None
    {
      data := if id in dir then Some(dir[id]) else None;
    }

    /** A file that is not there counts as deleted. */
    method Delete(id: string, removed: bool) returns (ok: bool)
      modifies this
      ensures dir == Do(old(dir), hash, Op.Delete(id, removed))
      ensures ok <==> id !in old(dir) || removed
    {
      ok := id !in dir || removed;
      if removed {
        dir := dir - {id};
      }
    }
  }

  // ---------- what an id means ----------

  /** Every id names data of that hash. */
  ghost predicate Honest(dir: Dir, hash: string -> string) {
    forall id :: id in dir ==> hash(dir[id]) == id
  }

  ghost predicate Injective(hash: string -> string) {
    forall a, b :: hash(a) == hash(b) ==> a == b
  }

  /** A Put that leaves a file cut short. */
  predicate Tears(dir: Dir, hash: string -> string, op: Op) {
    op.Put? && op.writing.Torn? && op.writing.bytes < |op.data| && hash(op.data) !in dir
  }

  /** The ids whose file was cut short and not deleted since: what the log of the
      calls and their errors tells. */
  function TornIds(hash: string -> string, ops: seq<Op>): set<string>
    decreases |ops|
  {
    if ops == [] then {} else
    var before, op := ops[..|ops| - 1], ops[|ops| - 1];
    if Tears(Run(map[], hash, before), hash, op) then TornIds(hash, before) + {hash(op.data)}
    else if op.Delete? && op.removed then TornIds(hash, before) - {op.id}
    else TornIds(hash, before)
  }

  /** From an empty directory the ids that do not name data of their hash are
      exactly those of writes cut short and not deleted since. */
  lemma {:induction false} TornIdsLie(hash: string -> string, ops: seq<Op>)
    requires Injective(hash)
    ensures var dir := Run(map[], hash, ops);
            forall id :: id in TornIds(hash, ops) <==> id in dir && hash(dir[id]) != id
    decreases |ops|
  {
    if ops != [] {
      TornIdsLie(hash, ops[..|ops| - 1]);
      var before, op := Run(map[], hash, ops[..|ops| - 1]), ops[|ops| - 1];
      if Tears(before, hash, op) {
        assert |op.data[..op.writing.bytes]| != |op.data|;
        assert hash(op.data[..op.writing.bytes]) != hash(op.data);
      }
    }
  }

  /** "Every id maps to data with that hash" holds if and only if no torn file is
      left. */
  lemma HonestUnlessTorn(hash: string -> string, ops: seq<Op>)
    requires Injective(hash)
    ensures Honest(Run(map[], hash, ops), hash) <==> TornIds(hash, ops) == {}
  {
    TornIdsLie(hash, ops);
  }

  /** Put is idempotent, and what it returned an id for can be read back, exactly
      when the directory did not already hold a torn file under that id. */
  lemma PutThenGet(dir: Dir, hash: string -> string, data: string, w: Writing)
    requires hash(data) in dir || w == Whole
    ensures var once := Do(dir, hash, Put(data, w));
            && hash(data) in once
            && Do(once, hash, Put(data, w)) == once
            && (once[hash(data)] == data <==> (hash(data) in dir ==> dir[hash(data)] == data))
            && forall id :: id in dir ==> id in once && once[id] == dir[id]
  {
  }

  /** A torn write is never repaired by putting the data again: Put reports
      success for it. */
  lemma TornStays(dir: Dir, hash: string -> string, data: string, n: nat, w: Writing)
    requires hash(data) !in dir && n < |data|
    ensures var torn := Do(dir, hash, Put(data, Torn(n)));
            Do(torn, hash, Put(data, w)) == torn && torn[hash(data)] != data
  {
    assert |data[..n]| != |data|;
  }
}
