/**
 * The key/value dictionary the quota backend talks to, seen only through the
 * calls the backend makes: open (`dict_init`), `dict_lookup`, a transaction of
 * `dict_set` / `dict_atomic_inc` operations that `dict_transaction_commit`
 * applies all-or-nothing, and close (`dict_deinit`). How the store adds an
 * increment to what it holds is the store's own business, so it is a
 * parameter (`inc`) fixed when the dictionary is opened.
 */
module DictStore {
  import opened Common

  /** One operation queued in a dictionary transaction. */
  datatype DictOp =
    | Set(key: string, value: string)          // dict_set
    | AtomicInc(key: string, diff: int)        // dict_atomic_inc

  /**
   * The store's increment: given what the key holds (if anything) and the
   * delta, what it holds afterwards (None: the key is absent).
   */
  type IncSemantics = (Option<string>, int) -> Option<string>

  function ApplyOp(entries: map<string, string>, op: DictOp, inc: IncSemantics): (r: map<string, string>)
    ensures forall k :: k != op.key ==> (k in r <==> k in entries)
    ensures forall k :: k != op.key && k in r ==> r[k] == entries[k]
    ensures op.Set? ==> op.key in r && r[op.key] == op.value
  {
    match op
    case Set(k, v) => entries[k := v]
    case AtomicInc(k, d) =>
      var current := if k in entries then Some(entries[k]) else None;
      match inc(current, d)
      case Some(v) => entries[k := v]
      case None => entries - {k}
  }

  /** A committed transaction: its operations applied in the order they were queued. */
  function ApplyAll(entries: map<string, string>, ops: seq<DictOp>, inc: IncSemantics): map<string, string>
    decreases |ops|
  {
    if ops == [] then entries else ApplyAll(ApplyOp(entries, ops[0], inc), ops[1..], inc)
  }

  /** A committed transaction leaves every key it does not name as it was. */
  lemma {:induction false} ApplyAllFrame(entries: map<string, string>, ops: seq<DictOp>, inc: IncSemantics, k: string)
    requires forall i :: 0 <= i < |ops| ==> ops[i].key != k
    ensures k in ApplyAll(entries, ops, inc) <==> k in entries
    ensures k in entries ==> ApplyAll(entries, ops, inc)[k] == entries[k]
    decreases |ops|
  {
    if ops != [] {
      ApplyAllFrame(ApplyOp(entries, ops[0], inc), ops[1..], inc, k);
    }
  }

  /** An open connection to the store, scoped to one user. */
  class Dict {
    const uri: string
    const username: Option<string>
    const inc: IncSemantics
    /** What the store holds for this user. */
    var entries: map<string, string>
    var open: bool

    /** `dict_init` that succeeded, connecting to a store holding `contents`. */
    constructor Open(uri: string, username: Option<string>, inc: IncSemantics, contents: map<string, string>)
      ensures this.uri == uri && this.username == username && this.inc == inc
      ensures entries == contents && open
    {
      this.uri := uri;
      this.username := username;
      this.inc := inc;
      entries := contents;
      open := true;
    }

    /**
     * `dict_lookup`: -1 when the store reports an error (`fails`), 1 with the
     * stored string on a hit, 0 when the key is absent.
     */
    method Lookup(key: string, fails: bool) returns (ret: int, value: string)
      requires open
      ensures fails ==> ret == -1
      ensures !fails && key in entries ==> ret == 1 && value == entries[key]
      ensures !fails && key !in entries ==> ret == 0
    {
      value := "";
      if fails {
        ret := -1;
      } else if key in entries {
        ret, value := 1, entries[key];
      } else {
        ret := 0;
      }
    }

    /**
     * `dict_transaction_commit`: 0 and every queued operation applied when the
     * store accepts it (`ok`), -1 and nothing applied otherwise.
     */
    method TransactionCommit(ops: seq<DictOp>, ok: bool) returns (ret: int)
      requires open
      modifies this`entries
      ensures ret == (if ok then 0 else -1)
      ensures entries == if ok then ApplyAll(old(entries), ops, inc) else old(entries)
    {
      if ok {
        entries := ApplyAll(entries, ops, inc);
        ret := 0;
      } else {
        ret := -1;
      }
    }

    /** `dict_deinit`: closes the connection. */
    method Close()
      requires open
      modifies this`open
      ensures !open
    {
      open := false;
    }
  }
}
