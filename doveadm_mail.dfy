/**
 * The mail-command part of `doveadm`: a registry of per-user mail commands
 * looked up by name, the option handling that picks one user or all users,
 * the all-users iteration with its progress interval and its stop rules, and
 * the `purge` command's choice of namespaces. The user iterator, the user
 * lookups, the per-user command and the signal flag are inputs.
 */
module DoveadmMail {
  import opened Common

  /** The function a registry entry runs for each user (`doveadm_mail_command_t`). */
  datatype CommandKind = PurgeCommand | ForceResyncCommand

  /** `struct doveadm_mail_cmd`: the command function, its name and its usage text. */
  datatype MailCmd = MailCmd(cmd: CommandKind, name: string, usageArgs: Option<string>)

  /** The built-in table `mail_commands[]`. */
  const MailCommands: seq<MailCmd> := [
    MailCmd(PurgeCommand, "purge", None),
    MailCmd(ForceResyncCommand, "force-resync", Some("<mailbox>"))
  ]

  /** The global array `doveadm_mail_cmds`. */
  class MailCmdRegistry {
    var cmds: seq<MailCmd>

    /** The array before `doveadm_mail_init`: empty. */
    constructor ()
      ensures cmds == []
    {
      cmds := [];
    }

    /** `doveadm_mail_register_cmd`: appends, leaving earlier entries as they were. */
    method Register(cmd: MailCmd)
      modifies this
      ensures cmds == old(cmds) + [cmd]
    {
      cmds := cmds + [cmd];
    }

    /** `doveadm_mail_init`: a fresh array holding the built-in table, in table order. */
    method Init()
      modifies this
      ensures cmds == MailCommands
    {
      cmds := [];
      for i := 0 to |MailCommands|
        invariant cmds == MailCommands[..i]
      {
        Register(MailCommands[i]);
      }
    }

    /** `doveadm_mail_deinit`: frees the array. */
    method Deinit()
      modifies this
      ensures cmds == []
    {
      cmds := [];
    }

    /**
     * `doveadm_mail_try_run`: true exactly when some entry is named
     * `cmdName`; then `index` is the FIRST such entry, the one passed to
     * `doveadm_mail_cmd`. When false, nothing is dispatched.
     */
    method TryRun(cmdName: string) returns (found: bool, index: nat)
      ensures found <==> exists i :: 0 <= i < |cmds| && cmds[i].name == cmdName
      ensures found ==> index < |cmds| && cmds[index].name == cmdName
      ensures found ==> forall j :: 0 <= j < index ==> cmds[j].name != cmdName
    {
      index := 0;
      while index < |cmds|
        invariant index <= |cmds|
        invariant forall j :: 0 <= j < index ==> cmds[j].name != cmdName
      {
        if cmds[index].name == cmdName {
          return true, index;
        }
        index := index + 1;
      }
      return false, 0;
    }
  }

  /** `enum mail_storage_service_flags`, the members this code sets or tests. */
  datatype ServiceFlag = Debug | UserdbLookup | TempPrivDrop

  /** What `doveadm_mail_cmd` goes on to do after reading its options. */
  datatype Dispatch =
    | UsageExit                                                            // usage(): exits
    | SingleUser(username: string, flags: set<ServiceFlag>, args: seq<string>)  // doveadm_mail_single_user
    | AllUsersMode(flags: set<ServiceFlag>, args: seq<string>)             // doveadm_mail_all_users

  /** `-v` adds the debug flag. */
  function DebugFlags(opts: seq<char>): set<ServiceFlag>
  {
    if 'v' in opts then {Debug} else {}
  }

  /**
   * The option handling of `doveadm_mail_cmd`. `opts` are the option
   * characters `getopt(argc, argv, "av")` returned, in order; `rest` is
   * `argv + optind` afterwards. An unknown option, or a missing user name
   * without `-a`, ends in usage().
   */
  method MailCmdOptions(opts: seq<char>, rest: seq<string>) returns (d: Dispatch)
    ensures d.UsageExit? <==>
      (exists i :: 0 <= i < |opts| && opts[i] != 'a' && opts[i] != 'v') || ('a' !in opts && rest == [])
    ensures d.SingleUser? ==>
      && 'a' !in opts && |rest| > 0
      && d.username == rest[0] && d.args == rest[1..] && d.flags == {UserdbLookup} + DebugFlags(opts)
    ensures d.AllUsersMode? ==>
      'a' in opts && d.args == rest && d.flags == {TempPrivDrop} + DebugFlags(opts)
  {
    var flags: set<ServiceFlag> := {};
    var allUsers := false;
    var i := 0;
    while i < |opts|
      invariant i <= |opts|
      invariant forall j :: 0 <= j < i ==> opts[j] == 'a' || opts[j] == 'v'
      invariant allUsers <==> 'a' in opts[..i]
      invariant flags == DebugFlags(opts[..i])
    {
      var c := opts[i];
      if c == 'a' {
        allUsers := true;
      } else if c == 'v' {
        flags := flags + {Debug};
      } else {
        return UsageExit;
      }
      assert opts[..i + 1] == opts[..i] + [c];
      i := i + 1;
    }
    assert opts[..i] == opts;
    if !allUsers {
      if |rest| == 0 {
        return UsageExit;
      }
      flags := flags + {UserdbLookup};
      d := SingleUser(rest[0], flags, rest[1..]);
    } else {
      flags := flags + {TempPrivDrop};
      d := AllUsersMode(flags, rest);
    }
  }

  /** The progress interval `doveadm_mail_all_users` settles on for `userCount` users. */
  function IntervalFor(userCount: nat): nat
  {
    if userCount < 10000 then 10 else if userCount < 100000 then 100 else 1000
  }

  /**
   * The interval loop of `doveadm_mail_all_users`: 10 below ten thousand
   * users, 100 below a hundred thousand, 1000 from there on.
   */
  method ProgressInterval(userCount: uint32) returns (interval: uint32)
    ensures interval == IntervalFor(userCount)
    ensures interval == 10 || interval == 100 || interval == 1000
  {
    var n: uint32 := userCount / 10000;
    interval := 10;
    while n > 0 && interval < 1000
      invariant (interval == 10 && n == userCount / 10000)
             || (interval == 100 && n == userCount / 100000 && userCount >= 10000)
             || (interval == 1000 && n == userCount / 1000000 && userCount >= 100000)
    {
      n := n / 10;
      interval := interval * 10;
    }
  }

  /** What the iterator and the storage service do for one user of the all-users loop. */
  datatype UserStep = UserStep(
    name: string,
    lookupRet: int,     // mail_storage_service_lookup: >0 found, 0 no such user, <0 failure
    initOk: bool,       // mail_storage_service_next succeeds
    killedAfter: bool)  // killed_signo is non-zero when the loop checks it after this user

  /** The outcome of `doveadm_mail_next_user`: its return value and whether the command ran. */
  datatype NextUserResult = NextUserResult(ret: int, ran: bool)

  /**
   * `doveadm_mail_next_user`: a user that no longer exists is skipped (0); a
   * failed lookup or user init is -1 without running the command; otherwise
   * the command runs once and the result is 0.
   */
  function NextUser(lookupRet: int, initOk: bool): (r: NextUserResult)
    ensures r.ret == 0 || r.ret == -1
    ensures r.ran <==> lookupRet > 0 && initOk
    ensures r.ret == -1 <==> lookupRet < 0 || (lookupRet > 0 && !initOk)
  {
    if lookupRet <= 0 then
      if lookupRet == 0 then NextUserResult(0, false) else NextUserResult(-1, false)
    else if !initOk then NextUserResult(-1, false)
    else NextUserResult(0, true)
  }

  /** The all-users loop stops after this user: its processing failed, or a signal arrived. */
  predicate StopsAfter(u: UserStep)
  {
    NextUser(u.lookupRet, u.initOk).ret < 0 || u.killedAfter
  }

  /** The position of the user the all-users loop stops at (|users| when it runs to the end). */
  function StopAt(users: seq<UserStep>): (r: nat)
    ensures r <= |users|
    ensures forall j :: 0 <= j < r ==> !StopsAfter(users[j])
    ensures r < |users| ==> StopsAfter(users[r])
  {
    if users == [] then 0
    else if StopsAfter(users[0]) then 0
    else 1 + StopAt(users[1..])
  }

  /** The users the command ran for, in order. */
  function RanFor(users: seq<UserStep>): seq<string>
  {
    if users == [] then []
    else
      var last := users[|users| - 1];
      RanFor(users[..|users| - 1]) + (if NextUser(last.lookupRet, last.initOk).ran then [last.name] else [])
  }

  /** The multiples of `interval` in 1..n, increasing: the counts the progress line shows. */
  function Multiples(n: nat, interval: nat): seq<nat>
    requires interval > 0
  {
    if n == 0 then [] else Multiples(n - 1, interval) + (if n % interval == 0 then [n] else [])
  }

  lemma {:induction false} MultiplesAre(n: nat, interval: nat)
    requires interval > 0
    ensures forall x :: x in Multiples(n, interval) <==> 1 <= x <= n && x % interval == 0
    ensures forall i, j :: 0 <= i < j < |Multiples(n, interval)| ==> Multiples(n, interval)[i] < Multiples(n, interval)[j]
  {
    if n > 0 {
      MultiplesAre(n - 1, interval);
      var prev := Multiples(n - 1, interval);
      forall i | 0 <= i < |prev| ensures prev[i] < n {
        assert prev[i] in prev;
      }
    }
  }

  /** How many users were counted towards the progress output: those whose processing did not fail. */
  function Counted(users: seq<UserStep>): nat
  {
    var stop := StopAt(users);
    if stop < |users| && NextUser(users[stop].lookupRet, users[stop].initOk).ret >= 0 then stop + 1 else stop
  }

  /**
   * `doveadm_mail_all_users`. The iterator yields `users` and then returns
   * `iterEnd` (0 at the end, negative on failure); `userCount` is what
   * `mail_storage_service_all_init` reported. The loop stops at the first
   * user whose processing fails, or right after a user processed while a
   * signal is pending, with -1; otherwise `ret` ends as the iterator's
   * final value. The function itself returns nothing: its final `ret`, given
   * here as `ret`, only decides whether "Failed to iterate through some
   * users" is logged (when it is negative). With the debug flag, the running
   * count of users is printed each time it is a multiple of the progress
   * interval.
   */
  method AllUsers(flags: set<ServiceFlag>, userCount: uint32, users: seq<UserStep>, iterEnd: int)
    returns (ret: int, serviceFlags: set<ServiceFlag>, ran: seq<string>, progress: seq<nat>)
    requires iterEnd <= 0
    ensures serviceFlags == flags + {UserdbLookup}
    ensures ret == (if StopAt(users) < |users| then -1 else iterEnd)
    ensures ran == RanFor(users[..if StopAt(users) < |users| then StopAt(users) + 1 else |users|])
    ensures progress == if Debug in flags then Multiples(Counted(users), IntervalFor(userCount)) else []
  {
    serviceFlags := flags + {UserdbLookup};
    var interval: nat := ProgressInterval(userCount);
    var userIdx: nat := 0;
    ran, progress := [], [];
    var i := 0;
    ret := if i < |users| then 1 else iterEnd;
    while ret > 0
      invariant i <= StopAt(users)
      invariant ret == (if i < |users| then 1 else iterEnd)
      invariant ran == RanFor(users[..i])
      invariant userIdx == (if Debug in flags then i else 0)
      invariant progress == if Debug in flags then Multiples(i, interval) else []
      decreases |users| - i
    {
      var u := users[i];
      var result := NextUser(u.lookupRet, u.initOk);
      assert users[..i + 1][..i] == users[..i];
      if result.ran {
        ran := ran + [u.name];
      }
      ret := result.ret;
      if ret < 0 {
        break;
      }
      if Debug in serviceFlags {
        userIdx := userIdx + 1;
        if userIdx % interval == 0 {
          progress := progress + [userIdx];
        }
      }
      if u.killedAfter {
        ret := -1;
        break;
      }
      i := i + 1;
      ret := if i < |users| then 1 else iterEnd;
    }
  }

  /** `NAMESPACE_PRIVATE` and the other namespace types. */
  datatype NamespaceType = Private | Shared | Public

  /** A user's namespace, as far as `cmd_purge` looks at it; `purgeOk` is what `mail_storage_purge` does. */
  datatype Namespace = Namespace(prefix: string, nsType: NamespaceType, aliasFor: Option<string>, purgeOk: bool)

  /** `cmd_purge` purges a private namespace that is not an alias of another. */
  predicate Purgeable(ns: Namespace)
  {
    ns.nsType == Private && ns.aliasFor.None?
  }

  function PurgeTargets(namespaces: seq<Namespace>): seq<Namespace>
  {
    if namespaces == [] then []
    else
      var last := namespaces[|namespaces| - 1];
      PurgeTargets(namespaces[..|namespaces| - 1]) + (if Purgeable(last) then [last] else [])
  }

  /** Purging visits exactly the purgeable namespaces. */
  lemma {:induction false} PurgeTargetsAre(namespaces: seq<Namespace>)
    ensures forall ns :: ns in PurgeTargets(namespaces) <==> ns in namespaces && Purgeable(ns)
  {
    if namespaces != [] {
      var front := namespaces[..|namespaces| - 1];
      PurgeTargetsAre(front);
      assert namespaces == front + [namespaces[|namespaces| - 1]];
    }
  }

  /**
   * Purging a list is purging its two halves one after the other: a failure
   * in the first half does not keep the second half from being purged.
   */
  lemma {:induction false} PurgeTargetsAppend(a: seq<Namespace>, b: seq<Namespace>)
    ensures PurgeTargets(a + b) == PurgeTargets(a) + PurgeTargets(b)
    decreases |b|
  {
    if b == [] {
      assert a + b == a;
    } else {
      var front := b[..|b| - 1];
      assert (a + b)[..|a + b| - 1] == a + front;
      assert (a + b)[|a + b| - 1] == b[|b| - 1];
      PurgeTargetsAppend(a, front);
    }
  }

  /** The prefixes of the purged namespaces whose purge failed (each logged as an error). */
  function FailedPrefixes(purged: seq<Namespace>): seq<string>
  {
    if purged == [] then []
    else
      var last := purged[|purged| - 1];
      FailedPrefixes(purged[..|purged| - 1]) + (if last.purgeOk then [] else [last.prefix])
  }

  /**
   * `cmd_purge`: walks all the user's namespaces, purges each purgeable one,
   * and logs a failure and goes on; `failed` lists the prefixes of the
   * namespaces whose failure is logged, in the order of the error lines.
   */
  method CmdPurge(namespaces: seq<Namespace>) returns (purged: seq<Namespace>, failed: seq<string>)
    ensures purged == PurgeTargets(namespaces)
    ensures failed == FailedPrefixes(purged)
  {
    purged, failed := [], [];
    for i := 0 to |namespaces|
      invariant purged == PurgeTargets(namespaces[..i])
      invariant failed == FailedPrefixes(purged)
    {
      var ns := namespaces[i];
      assert namespaces[..i + 1][..i] == namespaces[..i];
      if ns.nsType != Private || ns.aliasFor.Some? {
        continue;
      }
      assert (purged + [ns])[..|purged|] == purged;
      purged := purged + [ns];
      if !ns.purgeOk {
        failed := failed + [ns.prefix];
      }
    }
    assert namespaces[..|namespaces|] == namespaces;
  }
}
