/**
 * The dictionary-backed quota backend (`quota_backend_dict`): per user it keeps
 * two counters, storage bytes and message count, as decimal strings under two
 * private dictionary keys, reads them back on demand, recomputes both from the
 * mail storage when they are missing, and applies usage deltas as atomic
 * increments.
 */
module QuotaDict {
  import opened Common
  import opened Decimal
  import opened DictStore

  /** `DICT_PATH_PRIVATE` (dict.h, not part of this model) */
  const DictPathPrivate := "priv/"
  /** `DICT_QUOTA_CURRENT_BYTES_PATH` */
  const BytesKey := DictPathPrivate + "quota/storage"
  /** `DICT_QUOTA_CURRENT_COUNT_PATH` */
  const CountKey := DictPathPrivate + "quota/messages"

  /** Resource names of the quota framework (quota.h, not part of this model). */
  const StorageKilobytesName := "STORAGE"
  const StorageBytesName := "STORAGE_BYTES"
  const MessagesName := "MESSAGE"

  /** The backend's name in the quota framework's backend table. */
  const BackendName := "dict"

  /** What `quota_count` reports on success: bytes and messages in use. */
  datatype Usage = Usage(bytes: uint64, count: uint64)

  /** A parsed `"[user]:uri"` configuration: the user the dictionary is opened for and its URI. */
  datatype DictConfig = DictConfig(username: Option<string>, uri: string)

  /** What a resource read reports: the return code, `*value_r`, and the store afterwards. */
  datatype ReadOutcome = ReadOutcome(ret: int, value: uint64, entries: map<string, string>)

  /** `strchr(s, c)`: the position of the first `c` in `s`. */
  function FindChar(s: string, c: char): (r: Option<nat>)
    ensures r.None? <==> c !in s
    ensures r.Some? ==> r.value < |s| && s[r.value] == c && c !in s[..r.value]
  {
    if s == [] then None
    else if s[0] == c then Some(0)
    else match FindChar(s[1..], c)
      case None => None
      case Some(i) => assert s[..i + 1] == [s[0]] + s[1..][..i]; Some(i + 1)
  }

  /**
   * The configuration parsing of `dict_quota_init`: the text before the first
   * `:` names the user (the ambient `USER`, `envUser`, when it is empty), the
   * rest is the dictionary URI, which may itself contain `:`. No argument
   * string, or one without `:`, is refused.
   */
  function ParseArgs(args: Option<string>, envUser: Option<string>): (r: Option<DictConfig>)
    ensures r.None? <==> args.None? || ':' !in args.value
    ensures r.Some? ==>
      var s, p := args.value, |args.value| - |r.value.uri| - 1;
      && 0 <= p < |s| && s[p] == ':' && ':' !in s[..p] && s[p + 1..] == r.value.uri
      && r.value.username == (if p == 0 then envUser else Some(s[..p]))
  {
    match args
    case None => None
    case Some(s) =>
      match FindChar(s, ':')
      case None => None
      case Some(p) =>
        var username := s[..p];
        Some(DictConfig(if username == "" then envUser else Some(username), s[p + 1..]))
  }

  /** Writing a configuration as `user ":" uri` and parsing it gives back the user and the URI. */
  lemma ParseArgsOfJoined(user: string, uri: string, envUser: Option<string>)
    requires ':' !in user
    ensures ParseArgs(Some(user + ":" + uri), envUser)
         == Some(DictConfig(if user == "" then envUser else Some(user), uri))
  {
    var s := user + ":" + uri;
    assert s[|user|] == ':' && s[..|user|] == user && s[|user| + 1..] == uri;
  }

  /**
   * The resource-name test of `dict_quota_get_resource`: Some(true) for the
   * storage-bytes name, Some(false) for the messages name, None ("not
   * handled") for every other name.
   */
  function WantBytes(name: string): (r: Option<bool>)
    ensures r == Some(true) <==> name == StorageBytesName
    ensures r == Some(false) <==> name == MessagesName
    ensures r.None? <==> name != StorageBytesName && name != MessagesName
  {
    if name == StorageBytesName then Some(true)
    else if name == MessagesName then Some(false)
    else None
  }

  /** The key that holds the requested counter. */
  function CounterKey(wantBytes: bool): string
  {
    if wantBytes then BytesKey else CountKey
  }

  /** The transaction `dict_quota_count` queues: both counters overwritten with their decimal spelling. */
  function CountTransaction(u: Usage): seq<DictOp>
  {
    [Set(BytesKey, Dec2Str(u.bytes)), Set(CountKey, Dec2Str(u.count))]
  }

  /** The transaction `dict_quota_update` queues: one increment per non-zero component. */
  function UpdateTransaction(bytesUsed: int, countUsed: int): seq<DictOp>
  {
    (if bytesUsed != 0 then [AtomicInc(BytesKey, bytesUsed)] else [])
    + (if countUsed != 0 then [AtomicInc(CountKey, countUsed)] else [])
  }

  /**
   * `dict_quota_count`: on oracle failure -1 and no write; otherwise 1 with
   * the requested counter, and both counters seeded if the commit succeeds
   * (a failed commit is only logged).
   */
  function CountOutcome(entries: map<string, string>, wantBytes: bool, usage: Option<Usage>,
                        commitOk: bool, inc: IncSemantics): ReadOutcome
  {
    match usage
    case None => ReadOutcome(-1, 0, entries)
    case Some(u) =>
      ReadOutcome(1, if wantBytes then u.bytes else u.count,
                  if commitOk then ApplyAll(entries, CountTransaction(u), inc) else entries)
  }

  /**
   * `dict_quota_get_resource` on a store holding `entries`: `lookupFails`
   * is a lookup error, `usage` what `quota_count` would report, `commitOk`
   * whether the seeding commit succeeds.
   */
  function ReadResource(entries: map<string, string>, name: string, lookupFails: bool,
                        usage: Option<Usage>, commitOk: bool, inc: IncSemantics): (r: ReadOutcome)
    ensures r.ret == -1 || r.ret == 0 || r.ret == 1
    ensures r.ret == 0 <==> WantBytes(name).None?
    ensures r.ret != 1 ==> r.entries == entries && r.value == 0
    ensures WantBytes(name).Some? && lookupFails ==> r.ret == -1
    ensures WantBytes(name).Some? && !lookupFails && CounterKey(WantBytes(name).value) in entries ==>
      r == ReadOutcome(1, Strtoull(entries[CounterKey(WantBytes(name).value)]), entries)
  {
    match WantBytes(name)
    case None => ReadOutcome(0, 0, entries)
    case Some(wantBytes) =>
      var key := CounterKey(wantBytes);
      if lookupFails then ReadOutcome(-1, 0, entries)
      else if key in entries then ReadOutcome(1, Strtoull(entries[key]), entries)
      else CountOutcome(entries, wantBytes, usage, commitOk, inc)
  }

  /** The two counters live under different keys, both under the private quota path. */
  lemma CounterKeysDistinct()
    ensures BytesKey != CountKey
    ensures BytesKey[..|DictPathPrivate|] == DictPathPrivate && CountKey[..|DictPathPrivate|] == DictPathPrivate
  {
  }

  /**
   * A seeding transaction leaves both counters present and reading back
   * exactly as the oracle reported them, and touches no other key.
   */
  lemma SeedReadsBack(entries: map<string, string>, u: Usage, inc: IncSemantics)
    ensures var s := ApplyAll(entries, CountTransaction(u), inc);
      && BytesKey in s && CountKey in s
      && Strtoull(s[BytesKey]) == u.bytes && Strtoull(s[CountKey]) == u.count
      && forall k :: k != BytesKey && k != CountKey ==> (k in s <==> k in entries) && (k in s ==> s[k] == entries[k])
  {
    CounterKeysDistinct();
    ParseDec2Str(u.bytes);
    ParseDec2Str(u.count);
    var ops := CountTransaction(u);
    var s1 := ApplyOp(entries, ops[0], inc);
    var s2 := ApplyOp(s1, ops[1], inc);
    assert ops[1..][0] == ops[1] && ops[1..][1..] == [];
    assert ApplyAll(entries, ops, inc) == ApplyAll(s1, ops[1..], inc) == s2;
  }

  /**
   * A read that finds its counter missing recomputes it: it returns 1 and the
   * requested oracle value even if the commit fails, and on a successful
   * commit it seeds BOTH counters, the sibling included. An oracle failure
   * returns -1 and writes nothing.
   */
  lemma MissSeedsBothCounters(entries: map<string, string>, name: string, usage: Option<Usage>,
                              commitOk: bool, inc: IncSemantics)
    requires WantBytes(name).Some? && CounterKey(WantBytes(name).value) !in entries
    ensures var r := ReadResource(entries, name, false, usage, commitOk, inc);
      && (usage.None? ==> r.ret == -1 && r.entries == entries)
      && (usage.Some? ==>
            && r.ret == 1
            && r.value == (if name == StorageBytesName then usage.value.bytes else usage.value.count)
            && (!commitOk ==> r.entries == entries)
            && (commitOk ==>
                  && BytesKey in r.entries && Strtoull(r.entries[BytesKey]) == usage.value.bytes
                  && CountKey in r.entries && Strtoull(r.entries[CountKey]) == usage.value.count))
  {
    if usage.Some? {
      SeedReadsBack(entries, usage.value, inc);
    }
  }

  /**
   * After a read that missed and seeded the counters, reading either
   * resource hits the store: it returns 1 with the value the oracle gave the
   * first time, writes nothing, and does not consult the oracle again
   * (whatever `usage2` and `commitOk2` are).
   */
  lemma SecondReadHitsSeededCounter(entries: map<string, string>, name: string, u: Usage,
                                    inc: IncSemantics, name2: string, usage2: Option<Usage>, commitOk2: bool)
    requires WantBytes(name).Some? && CounterKey(WantBytes(name).value) !in entries
    requires WantBytes(name2).Some?
    ensures var first := ReadResource(entries, name, false, Some(u), true, inc);
      ReadResource(first.entries, name2, false, usage2, commitOk2, inc)
        == ReadOutcome(1, if name2 == StorageBytesName then u.bytes else u.count, first.entries)
  {
    SeedReadsBack(entries, u, inc);
  }

  /**
   * A hit returns 1 with the counter the stored string spells, changes
   * nothing, and neither asks the oracle nor commits.
   */
  lemma HitReturnsStoredCounter(entries: map<string, string>, name: string, v: uint64,
                                usage: Option<Usage>, commitOk: bool, inc: IncSemantics)
    requires WantBytes(name).Some?
    requires var key := CounterKey(WantBytes(name).value); key in entries && entries[key] == Dec2Str(v)
    ensures ReadResource(entries, name, false, usage, commitOk, inc) == ReadOutcome(1, v, entries)
  {
    ParseDec2Str(v);
  }

  /** A committed update with both deltas zero leaves the store as it was. */
  lemma ZeroDeltaChangesNothing(entries: map<string, string>, inc: IncSemantics)
    ensures UpdateTransaction(0, 0) == []
    ensures ApplyAll(entries, UpdateTransaction(0, 0), inc) == entries
  {
  }

  /**
   * An update queues an increment on a counter exactly when that
   * component's delta is non-zero, and a committed update changes no other
   * key and no counter whose delta is zero.
   */
  lemma UpdateTouchesOnlyNonZeroCounters(entries: map<string, string>, bytesUsed: int, countUsed: int,
                                         inc: IncSemantics, k: string)
    requires (k != BytesKey || bytesUsed == 0) && (k != CountKey || countUsed == 0)
    ensures AtomicInc(BytesKey, bytesUsed) in UpdateTransaction(bytesUsed, countUsed) <==> bytesUsed != 0
    ensures AtomicInc(CountKey, countUsed) in UpdateTransaction(bytesUsed, countUsed) <==> countUsed != 0
    ensures var s := ApplyAll(entries, UpdateTransaction(bytesUsed, countUsed), inc);
      (k in s <==> k in entries) && (k in s ==> s[k] == entries[k])
  {
    CounterKeysDistinct();
    var ops := UpdateTransaction(bytesUsed, countUsed);
    assert forall i :: 0 <= i < |ops| ==> ops[i].key != k;
    ApplyAllFrame(entries, ops, inc, k);
  }

  /**
   * Of the two resources the backend advertises, `dict_quota_get_resource`
   * answers the messages one itself; it answers storage under the bytes
   * name, not under the advertised kilobytes name.
   */
  lemma AdvertisedResourcesAnswered(root: DictQuotaRoot)
    ensures WantBytes(root.GetResources()[1]) == Some(false)
    ensures WantBytes(root.GetResources()[0]).None? && WantBytes(StorageBytesName) == Some(true)
  {
  }

  /** `struct dict_quota_root`: the framework's root plus the dictionary handle. */
  class DictQuotaRoot {
    /** `root->dict`: NULL until `dict_quota_init` opens it and after `dict_quota_deinit`. */
    var dict: Dict?
    /** Set by `i_free(root)` in `dict_quota_deinit`; nothing may use the root afterwards. */
    var freed: bool

    /** Initialised and usable: the dictionary handle is open. */
    ghost predicate Ready()
      reads this, dict
    {
      !freed && dict != null && dict.open
    }

    /** `dict_quota_alloc`: a zeroed root, with no dictionary. */
    constructor Alloc()
      ensures dict == null && !freed
    {
      dict := null;
      freed := false;
    }

    /**
     * `dict_quota_init`: parses `args` (see ParseArgs) and, when it is well
     * formed, opens the dictionary at the URI for the resolved user; `connects`
     * says whether `dict_init` succeeds and `contents` is what the store holds.
     * Returns 0 exactly when the handle is set afterwards, -1 otherwise.
     */
    method Init(args: Option<string>, envUser: Option<string>, connects: bool,
                inc: IncSemantics, contents: map<string, string>) returns (ret: int)
      requires dict == null && !freed
      modifies this
      ensures !freed
      ensures ret == 0 || ret == -1
      ensures ret == 0 <==> dict != null
      ensures ret == 0 <==> ParseArgs(args, envUser).Some? && connects
      ensures dict != null ==>
        && fresh(dict) && dict.open && dict.inc == inc && dict.entries == contents
        && dict.uri == ParseArgs(args, envUser).value.uri
        && dict.username == ParseArgs(args, envUser).value.username
    {
      var config := ParseArgs(args, envUser);
      if config.None? {
        return -1;
      }
      if connects {
        dict := new Dict.Open(config.value.uri, config.value.username, inc, contents);
      } else {
        dict := null;
      }
      ret := if dict != null then 0 else -1;
    }

    /**
     * `dict_quota_deinit`: closes the dictionary if one is open (so it is
     * safe on a root whose init failed or never ran) and frees the root.
     */
    method Deinit()
      requires !freed
      requires dict != null ==> dict.open
      modifies this, dict
      ensures freed && dict == null
      ensures old(dict) != null ==> !old(dict).open && old(dict).entries == old(dict.entries)
    {
      if dict != null {
        dict.Close();
        dict := null;
      }
      freed := true;
    }

    /**
     * `dict_quota_root_get_resources`: exactly the kilobytes name and then the
     * messages name; it reads nothing of the root.
     */
    function GetResources(): (r: seq<string>)
      ensures |r| == 2 && r[0] == StorageKilobytesName && r[1] == MessagesName
    {
      [StorageKilobytesName, MessagesName]
    }

    /**
     * `dict_quota_count`: asks the oracle (`usage`) for both counters, writes
     * both back in one transaction, and returns the requested one.
     */
    method Count(wantBytes: bool, usage: Option<Usage>, commitOk: bool) returns (ret: int, value: uint64)
      requires Ready()
      modifies dict
      ensures Ready() && dict == old(dict)
      ensures var r := CountOutcome(old(dict.entries), wantBytes, usage, commitOk, dict.inc);
        ret == r.ret && value == r.value && dict.entries == r.entries
    {
      value := 0;
      if usage.None? {
        return -1, value;
      }
      var bytes, count := usage.value.bytes, usage.value.count;
      var dt: seq<DictOp> := [];
      dt := dt + [Set(BytesKey, Dec2Str(bytes))];
      dt := dt + [Set(CountKey, Dec2Str(count))];
      var commitRet := dict.TransactionCommit(dt, commitOk);
      value := if wantBytes then bytes else count;
      ret := 1;
    }

    /**
     * `dict_quota_get_resource`: 0 for a name the backend does not handle,
     * -1 on a lookup error, 1 and the parsed counter on a hit, and on a miss
     * whatever the recomputation (Count) returns.
     */
    method GetResource(name: string, lookupFails: bool, usage: Option<Usage>, commitOk: bool)
      returns (ret: int, value: uint64)
      requires Ready()
      modifies dict
      ensures Ready() && dict == old(dict)
      ensures var r := ReadResource(old(dict.entries), name, lookupFails, usage, commitOk, dict.inc);
        ret == r.ret && value == r.value && dict.entries == r.entries
    {
      value := 0;
      var wantBytes: bool;
      if name == StorageBytesName {
        wantBytes := true;
      } else if name == MessagesName {
        wantBytes := false;
      } else {
        return 0, value;
      }
      var stored: string;
      ret, stored := dict.Lookup(if wantBytes then BytesKey else CountKey, lookupFails);
      if ret < 0 {
        value := 0;
      } else if ret == 0 {
        ret, value := Count(wantBytes, usage, commitOk);
      } else {
        value := Strtoull(stored);
      }
    }

    /**
     * `dict_quota_update`: one transaction with an atomic increment for each
     * non-zero delta; -1 when the commit fails (nothing applied), 0 otherwise.
     */
    method Update(bytesUsed: int64, countUsed: int64, commitOk: bool) returns (ret: int)
      requires Ready()
      modifies dict
      ensures Ready() && dict == old(dict)
      ensures ret == (if commitOk then 0 else -1)
      ensures dict.entries == if commitOk then ApplyAll(old(dict.entries), UpdateTransaction(bytesUsed, countUsed), dict.inc)
                              else old(dict.entries)
    {
      var dt: seq<DictOp> := [];
      if bytesUsed != 0 {
        dt := dt + [AtomicInc(BytesKey, bytesUsed)];
      }
      if countUsed != 0 {
        dt := dt + [AtomicInc(CountKey, countUsed)];
      }
      var commitRet := dict.TransactionCommit(dt, commitOk);
      if commitRet < 0 {
        return -1;
      }
      return 0;
    }
  }
}
