# Dovecot dictionary quota backend and doveadm mail commands, in Dafny

This project models two pieces of the Dovecot mail server and proves properties of them.

**The dictionary quota backend** (`quota_backend_dict`). It keeps two counters for each mailbox owner in a key/value dictionary: storage bytes under `priv/quota/storage` and message count under `priv/quota/messages`. Both are stored as decimal strings. The model covers:

- the root's life cycle: alloc, init from a `"[user]:uri"` argument string, and deinit;
- the advertised resource list;
- resource reads, which parse a hit, surface a lookup error, or recompute both counters from the mail storage on a miss and write them back in one transaction;
- usage updates, which queue an atomic increment for each non-zero delta and commit.

The dictionary is a `Dict` object (`dict_store.dfy`). It holds a `map<string, string>` of entries. A transaction is a list of `Set` / `AtomicInc` operations that the commit applies all-or-nothing. The mail storage's recount (`quota_count`) is an input, and so are the lookup and commit outcomes.

**doveadm's mail commands** (`doveadm-mail.c`). The model covers:

- the command registry, with registration, the built-in table and lookup by name;
- the `-a` / `-v` option handling;
- the all-users loop, with its progress interval, its per-user return codes and its stop rules;
- the namespace filter of `purge`.

The user iterator, the user lookups, the command itself and the signal flag are inputs.

Files:

- `common.dfy`: `Option` and the C integer widths.
- `decimal.dfy`: `dec2str` and `strtoull(…, 10)`, and their round trip.
- `dict_store.dfy`: the abstract dictionary.
- `quota_dict.dfy`: the quota backend.
- `doveadm_mail.dfy`: the doveadm mail commands.

What the source does that a caller may not expect:

- Init reports a malformed argument string and a failed dictionary open the same way, with -1. There are no separate configuration and connection errors.
- Deinit checks the handle for NULL (quota-dict.c:59), so it is safe after a failed init or with no init at all.
- A lookup error returns the lookup's negative code, modelled as -1, with value 0. An oracle failure returns -1. No error value is carried.
- The advertised resource list names storage in kilobytes (`STORAGE`). The read operation answers storage only under the bytes name (`STORAGE_BYTES`). The quota framework, which is not part of this model, converts between the two.

The values of `DICT_PATH_PRIVATE` (`"priv/"`) and of the quota resource names (`STORAGE`, `STORAGE_BYTES`, `MESSAGE`) come from `dict.h` and `quota.h`. Those headers are not part of this model. The proofs use only the fact that the names differ from one another.

## Model

| member | source | states |
|---|---|---|
| `Decimal.Dec2Str` | src/plugins/quota/quota-dict.c:86-87 | A stored counter is a non-empty run of decimal digits. It starts with `0` only when the counter is 0, so it has no leading zeros. |
| `Decimal.StrtoullOfDigits` | src/plugins/quota/quota-dict.c:122 | On a run of digits whose value fits in 64 bits, `strtoull(…, 10)` returns exactly that value. No space is skipped, no sign is read and nothing saturates. |
| `Decimal.StrtoullOfSignedDigits` | src/plugins/quota/quota-dict.c:122 | `strtoull(…, 10)` (the model's `Strtoull`, `ReadSigned` and `Convert`) skips leading white space, reads one optional `+` or `-`, then the run of digits up to the first non-digit. The result is the digits' value. A minus sign negates it modulo 2^64, so `"-5"` reads as 2^64 - 5: a counter the store has decremented below zero reads back as a huge number. A value past 2^64 - 1 saturates at 2^64 - 1, whatever the sign. |
| `Decimal.ParseDec2Str` | src/plugins/quota/quota-dict.c:122 | For every `uint64_t` v, `strtoull(dec2str(v), NULL, 10) == v`. A counter written by the seeding transaction reads back exactly. |
| `Decimal.Dec2StrInjective` | src/plugins/quota/quota-dict.c:86-87 | Two different counter values are never stored as the same string. |
| `DictStore.ApplyOp` | src/plugins/quota/quota-dict.c:86-87 | One queued set or increment changes only its own key. A set leaves that key holding the given string. |
| `DictStore.ApplyAllFrame` | src/plugins/quota/quota-dict.c:145-146 | A committed transaction leaves every key that none of its operations names present or absent as before, with the same value. |
| `DictStore.Dict.Open` | src/plugins/quota/quota-dict.c:51 | A successful `dict_init` yields an open handle. It is bound to the given URI and user, and it sees what the store holds. |
| `DictStore.Dict.Lookup` | src/plugins/quota/quota-dict.c:114-116 | The lookup returns -1 on a store error and 0 when the key is absent. Otherwise it returns 1 with the stored string. |
| `DictStore.Dict.TransactionCommit` | src/plugins/quota/quota-dict.c:145-146 | On success the commit returns 0 with all queued operations applied in order. On failure it returns -1 with the store unchanged. |
| `DictStore.Dict.Close` | src/plugins/quota/quota-dict.c:59-60 | `dict_deinit` leaves the handle closed. |
| `QuotaDict.FindChar` | src/plugins/quota/quota-dict.c:34 | `strchr` finds nothing exactly when the character does not occur. Otherwise it finds the first occurrence. |
| `QuotaDict.ParseArgs` | src/plugins/quota/quota-dict.c:34-44 | NULL args, or args without `:`, are refused. Otherwise the split is at the first `:`. The user is the text before it, replaced by the ambient `USER` when empty. The URI is everything after it, further colons included. |
| `QuotaDict.ParseArgsOfJoined` | src/plugins/quota/quota-dict.c:40-44 | Parsing `user ":" uri`, for a user without `:`, gives back that user and that exact URI. An empty user gives the ambient `USER`. |
| `QuotaDict.WantBytes` | src/plugins/quota/quota-dict.c:106-111 | The bytes name selects the bytes counter and the messages name selects the message counter. Every other name is not handled. |
| `QuotaDict.ReadResource` | src/plugins/quota/quota-dict.c:106-125 | A read returns -1, 0 or 1. It returns 0 exactly when the name is not handled. A lookup error on a handled name gives -1. Whenever the result is not 1, the store is untouched and the value is 0. On a hit the result is 1 with `strtoull` of the stored string, and the store is unchanged. |
| `QuotaDict.HitReturnsStoredCounter` | src/plugins/quota/quota-dict.c:119-122 | When the counter's key holds the decimal spelling of v, the read returns 1 and v. It changes nothing and depends on no oracle or commit outcome. |
| `QuotaDict.CounterKeysDistinct` | src/plugins/quota/quota-dict.c:10-12 | The bytes key and the count key differ. Both lie under the private dictionary path. |
| `QuotaDict.SeedReadsBack` | src/plugins/quota/quota-dict.c:84-87 | The seeding transaction leaves both counters present, each parsing back to the oracle's value. It changes no other key. |
| `QuotaDict.MissSeedsBothCounters` | src/plugins/quota/quota-dict.c:81-94 | On a miss, an oracle failure returns -1 and writes nothing. Otherwise the read returns 1 with the requested oracle value, even if the commit fails. A successful commit seeds both counters, the sibling included. |
| `QuotaDict.SecondReadHitsSeededCounter` | src/plugins/quota/quota-dict.c:114-122 | After a read that missed and seeded the counters, a read of either resource returns 1 with the first oracle answer. It writes nothing and does not depend on any later oracle or commit outcome. |
| `QuotaDict.ZeroDeltaChangesNothing` | src/plugins/quota/quota-dict.c:135-147 | An update whose two deltas are zero queues nothing. Committing it leaves the store as it was. |
| `QuotaDict.UpdateTouchesOnlyNonZeroCounters` | src/plugins/quota/quota-dict.c:135-143 | An increment is queued on a counter exactly when that component's delta is non-zero. A committed update changes no other key and no counter whose delta is zero. |
| `QuotaDict.AdvertisedResourcesAnswered` | src/plugins/quota/quota-dict.c:67-68 | The read answers the advertised messages name with the message counter. It does not answer the advertised kilobytes name, because it serves storage under the bytes name. |
| `QuotaDict.DictQuotaRoot.Alloc` | src/plugins/quota/quota-dict.c:21-27 | A new root has no dictionary and is not freed. |
| `QuotaDict.DictQuotaRoot.Init` | src/plugins/quota/quota-dict.c:29-53 | Init returns 0 or -1, and 0 exactly when the handle is set afterwards. That happens exactly when the arguments parse and `dict_init` succeeds. The new handle is opened on the parsed URI for the resolved user. Malformed arguments open nothing. |
| `QuotaDict.DictQuotaRoot.Deinit` | src/plugins/quota/quota-dict.c:55-62 | Deinit closes the handle only when one is set. It then clears it and frees the root, so it is callable after a failed or missing init. Closing leaves the closed dictionary's entries as they were. |
| `QuotaDict.DictQuotaRoot.GetResources` | src/plugins/quota/quota-dict.c:64-72 | The list is exactly the kilobytes name, then the messages name. It reads nothing of the root. |
| `QuotaDict.DictQuotaRoot.Count` | src/plugins/quota/quota-dict.c:74-95 | The return code, value and new store are those of `CountOutcome`: -1 with no write on oracle failure, else 1 with the requested counter. The store is seeded with both counters only if the commit succeeds. |
| `QuotaDict.DictQuotaRoot.GetResource` | src/plugins/quota/quota-dict.c:97-126 | The return code, value and new store are those of `ReadResource`, whose properties are the lemmas above. The root stays ready. |
| `QuotaDict.DictQuotaRoot.Update` | src/plugins/quota/quota-dict.c:128-148 | Update returns -1 exactly when the commit fails, with the store unchanged. Otherwise it returns 0 with the increments for the non-zero deltas applied. |
| `DoveadmMail.MailCmdRegistry.constructor` | src/doveadm/doveadm-mail.c:18 | Before init the registry is empty. |
| `DoveadmMail.MailCmdRegistry.Register` | src/doveadm/doveadm-mail.c:250-254 | Registering appends the command at the end and leaves earlier entries unchanged. |
| `DoveadmMail.MailCmdRegistry.Init` | src/doveadm/doveadm-mail.c:268-280 | After init the registry holds exactly `purge`, then `force-resync`, in table order. |
| `DoveadmMail.MailCmdRegistry.Deinit` | src/doveadm/doveadm-mail.c:282-285 | Deinit leaves the registry empty. |
| `DoveadmMail.MailCmdRegistry.TryRun` | src/doveadm/doveadm-mail.c:237-248 | The result is true exactly when some entry has the given name. The entry dispatched is the first one with that name. |
| `DoveadmMail.MailCmdOptions` | src/doveadm/doveadm-mail.c:203-235 | An unknown option, or no `-a` and no user argument, ends in usage. With `-a` the mode is all-users with `TEMP_PRIV_DROP`. Without it the first argument is the user, the rest are the command's arguments, and `USERDB_LOOKUP` is set. `-v` adds `DEBUG`. |
| `DoveadmMail.ProgressInterval` | src/doveadm/doveadm-mail.c:168-171 | The interval is 10 below 10000 users, 100 below 100000 and 1000 from there on. It is always 10, 100 or 1000. |
| `DoveadmMail.NextUser` | src/doveadm/doveadm-mail.c:106-139 | A missing user gives 0, skipped. A lookup or user-init failure gives -1 without running the command. Otherwise the command runs once and the result is 0. |
| `DoveadmMail.StopAt` | src/doveadm/doveadm-mail.c:174-194 | The stop point is the first user whose processing fails or after whom a signal is pending. No earlier user stops the loop. |
| `DoveadmMail.MultiplesAre` | src/doveadm/doveadm-mail.c:183-187 | The progress counts shown are exactly the multiples of the interval up to the number of users counted, in increasing order. |
| `DoveadmMail.AllUsers` | src/doveadm/doveadm-mail.c:146-201 | The loop adds `USERDB_LOOKUP`. It stops with -1 at the first failing user, or right after a user processed while a signal is pending. Otherwise it returns the iterator's final value. The C function returns nothing: this final `ret` only decides whether "Failed to iterate through some users" is logged (lines 198-199). The command runs for exactly the users up to the stop point whose lookup and init succeed. Progress is printed only with `DEBUG`. |
| `DoveadmMail.PurgeTargetsAre` | src/doveadm/doveadm-mail.c:26-28 | The namespaces purged are exactly the private ones that are not aliases. |
| `DoveadmMail.PurgeTargetsAppend` | src/doveadm/doveadm-mail.c:26-34 | Purging a list is purging each half in turn. A failure earlier in the list does not stop later namespaces from being purged. |
| `DoveadmMail.CmdPurge` | src/doveadm/doveadm-mail.c:22-35 | Every purgeable namespace is purged, in list order. Each one whose purge fails is reported, and the walk continues. The `failed` output is exactly the prefixes the `i_error` lines at lines 30-33 name, in their order. |

## Left out

- The dictionary transport (`dict_init`, `dict_lookup`, `dict_transaction_commit` and their internals) is abstract. It is a map, a lookup that may fail, and a commit that may fail and is all-or-nothing.
- What `dict_atomic_inc` does to the stored value is a parameter of the dictionary. This covers an absent key too. How concurrent increments from several processes compose is the store's guarantee, not this code's, and is not modelled.
- `quota_count` and the mail storage's enumeration are an input: a failure or a (bytes, messages) pair.
- Memory management (`i_new`, `i_free`, `t_push`/`t_pop`, `t_strdup_until`) is not modelled. Freeing the root is the `freed` flag.
- Logging (`i_error`, `i_info`, `i_warning`, `i_set_failure_prefix`) is not modelled as output text, and neither is the `DEBUG` environment print in init. Three logged outcomes are outputs instead. The purge failure lines are `CmdPurge`'s `failed` list. Whether the all-users loop logs "Failed to iterate through some users" is decided by `AllUsers`' `ret`. The progress lines printed by the all-users loop are the `progress` output. `doveadm_mail_usage` only prints usage text and is left out.
- Signal handling (`sig_die`, `lib_signals_set_handler`) is not modelled. `killed_signo` is the per-user `killedAfter` input, read where the loop checks it.
- `doveadm_mail_single_user`, `mailbox_find_and_open` and `cmd_force_resync` are storage-service and mailbox plumbing that ends in `i_fatal` or `usage()` process exits. They are not modelled. The single-user path ends at the `SingleUser` dispatch value.
- `getopt` is not modelled. Its result is given as the option characters it returned and the remaining arguments.
- The function-pointer table `quota_backend_dict` is the `DictQuotaRoot` class's methods plus the `BackendName` constant.
- DoveadmMail.CmdPurge: the namespace linked list (`ns->next`) is a sequence. `alias_for` is the aliased namespace's prefix, not a pointer.
- DoveadmMail.AllUsers: `user_idx` is an unbounded integer. The source's `unsigned int` would wrap after 2^32 users.
- QuotaDict.DictQuotaRoot.GetResource: where the source leaves `*value_r` unwritten (a name it does not handle, an oracle failure), the model reports 0.
- QuotaDict.DictQuotaRoot.Init: it requires a root fresh from alloc (no handle yet). The quota framework calls init exactly once, right after alloc.
