# MISP on Kubernetes: a model of its container library, with proofs

This project models the parts of `files/misp_container/` and `scripts/release.py` whose behaviour spans many
calls, processes or runs, and proves what they keep. `dafny verify dfyconfig.toml` checks all of it.

## What is modelled

**Org-sync** (`sync.py`). MISP is a value: records by kind and natural key, the order in which it lists them, sharing
groups, the live API keys of each user, the `misp_docker.server_keys` row and the log of every post. An add stores the
posted fields, an edit overwrites the posted fields only. An `Env` decides, for each post by its number, whether MISP
refuses it; a refused post leaves only its entry in the log. `SyncItems` holds what one entry of the file asks and posts,
`SyncRun` the steps and the whole run, as functions; `OrgSync.Reconciler` is the same reconciler with its snapshot
updated in place and its loops, each method proved equal to its function. The laws are then proved of the functions:

- a run over a settled MISP only reads (`SyncWarm`); a run that exits 0 leaves MISP settled, so the next run only reads
  (`SyncConverge`); a run in which MISP refuses nothing exits 0 when every name of the file resolves (`SyncProgress`);
- whatever is refused and whatever fails, each step that a run reaches attempts every entry of it (`SyncAttempts`);
- whatever is refused, every post is about an entry of the file or disables a record that may be disabled, and all other
  records, fields, sharing groups, members, API keys and recorded keys stay as they are (`SyncSafety`, `SyncGroupPosts`,
  `SyncRest`);
- the row of server keys tells the truth over any number of runs (`SyncKeys`);
- a membership sync ends at exactly the desired members (`SharingGroups`).

What the functions in these laws mean is proved apart from their bodies. `ValueMeanings` says what the comparisons mean, of characters
and digits. `SyncAsked` says of MISP's records, field by field, what each kind of entry asks, and that an entry holds
exactly then; `SyncEntries` says what an entry posts and when it fails. `SyncFile` says it of the whole file: MISP is
settled if and only if the file is in force (`SyncFile.SettledMeans`), and what a run that exits 0 leaves of every named
and every unnamed record (`SyncFile.ExitLeavesRecords`, `SyncFile.ExitSweeps`, `SyncFile.ExitLeavesAll`).

**Rollout** (`db.py`, `configure.py`, `migrate.py`). A step relation over any number of configure, migrate and org-sync
processes, one database statement at a time, with timeouts, failures and crashes at every point. `ConfiguredRuns` is the
bounded record of configure runs and the gate of the pods. `RolloutRuns.Session` has the two programs as sequences of
effects with their except and finally clauses, each effect one step of that relation. `RolloutCuts` is about drops that
are cut short.

**Log relay** (`logrelay.py`), **worker supervisor** (`worker.py`, in `Backoff` and `Supervisor`), **table copy** and
**attachment copy** (`migrate.py`, `s3.py`), the **config.php printer** against a reader of PHP literals (`config.py`),
and the **release versions** under section 11 of SemVer 2.0.0 (`scripts/release.py`).

## Where a law holds less widely than its documentation says

- `sync.py` promises that with nothing changed a run only reads. With distinct names and UUIDs throughout, two
  entries of `sharing_groups` can still find one group, one by its UUID and the other by its name: the first renames it,
  the second finds nothing to do, the run exits 0, and the next run creates a group
  (`SyncUnique.TwoEntriesOneGroup`). `SyncUnique.ConvergesIff` gives the exact condition: no two entries find one group.
- `migrate.py` takes a recorded success for a copy that is there. `drop_all` drops one table at a time, in the order of
  the listing, so a run that is cut short in it can leave the record over a target without some tables, which the next
  run keeps (`RolloutCuts.OneLoss`). It can if and only if a copied table is listed before `system_settings`
  (`RolloutCuts.CutLosesIff`).
- `config.php` writes section names and first-level keys between quotes as they are. `PhpConfig.ReadsBack` says for
  which names the file reads back as the tree, and that it does for no others.
- Chart versions stay or go down when the pin leaves one work in progress for another without a release in between
  (`Release.SkippedRelease`); `Release.EveryReleaseIsNewest` shows that this is the only such case.

## Model

| member | source | states |
|---|---|---|
| `Values.FlagSpellings` | files/misp_container/sync.py:99-112 | every spelling in which MISP stores a flag equals that flag, and none of the other flag does |
| `Values.StoredValueIsEqual` | files/misp_container/sync.py:99-112 | a value compares equal to itself, so a stored field reads as the field posted |
| `ValueMeanings.FlagMeans` | files/misp_container/sync.py:99-112 | a stored value equals a flag exactly if it is that flag, 1 or 0, "1" or "0", or the word in any letter case |
| `ValueMeanings.TextMeans` | files/misp_container/sync.py:99-112 | two other scalars are equal exactly if they have one text: of a number its decimal numeral |
| `ValueMeanings.StripMeans` | files/misp_container/sync.py:91-96 | strip takes exactly the white space off both ends |
| `ValueMeanings.UuidMeans` | files/misp_container/sync.py:85-96 | a UUID of version 4 is five hyphenated groups of hexadecimal digits with the version and the variant in place |
| `ValueMeanings.TrimSlashesMeans` | files/misp_container/sync.py:453-463 | rstrip takes exactly the slashes off the end of a URL |
| `MispWorld.NoDifferences` | files/misp_container/sync.py:249-251 | the posted changes are empty exactly when the record holds every desired field |
| `MispWorld.OverwriteHolds` | files/misp_container/sync.py:249-258 | overwriting the differing fields, with the unread ones beside them, leaves every desired field as desired |
| `SyncSteps.FieldsApart` | files/misp_container/sync.py:239-258 | no compared field is one that only a create carries, nor a password or server key |
| `SyncSteps.WantedStable` | files/misp_container/sync.py:203-213 | a name that resolved keeps its ID while records are only added, so an entry goes on asking for the same values |
| `SyncSteps.ReconcileReaches` | files/misp_container/sync.py:239-258 | an entry that succeeds leaves its record, password, API key and server key digest as the file asks, which `SyncAsked.HeldMeans` says field by field |
| `SyncAsked.HeldMeans` | files/misp_container/sync.py:281-524 | an entry holds exactly if its record has, field by field, what the entry says: of a server its name, flags, key digest, the ID of its team's organisation, pull rules by tag name and push rules by tag ID; of a user, organisation, tag and role likewise |
| `SyncEntries.EntryReaches` | files/misp_container/sync.py:239-258 | an entry that succeeds leaves its record so |
| `SyncEntries.EntryCreates` | files/misp_container/sync.py:244-258 | an entry creates its record exactly if the snapshot lacks it, with its key and no other fields than the compared ones and those of a new record |
| `SyncEntries.EntryEdits` | files/misp_container/sync.py:249-258 | what is posted of a record that is there differs from what it holds, field by field, a password or key aside |
| `SyncEntries.EntryFails` | files/misp_container/sync.py:239-493 | an entry fails exactly if a name of it is not in MISP, its post is refused, or the answer to a new user with an API key does not name it |
| `SyncEntries.EntryKeys` | files/misp_container/sync.py:407-445 | the API key of the file becomes the user's only one, unless it was there already |
| `SyncEntries.EntryCounts` | files/misp_container/sync.py:249-258 | an entry counts as unchanged exactly if nothing is posted of it, a server's key aside |
| `SyncSteps.ListReaches` | files/misp_container/sync.py:594-639 | a custom warninglist that succeeds has the file's content and, if wanted, is enabled |
| `SyncAsked.ListMeans` | files/misp_container/sync.py:594-639 | a custom warninglist holds exactly if description, type and category are the file's, attribute types and entries in some order, all types if the file names none, and it is on if wanted |
| `SyncEntries.ListCreates` | files/misp_container/sync.py:614-639 | a list that the snapshot lacks is posted with its content and version; one that MISP has all the same is left as it is and enabled |
| `SyncSteps.ApplyOneFrame` | files/misp_container/sync.py:239-258 | one entry touches only its own record, in the fields it names, whatever MISP refuses |
| `SyncPosts.HeldIsQuiet` | files/misp_container/sync.py:239-258 | an entry whose record is as the file asks posts nothing and changes nothing |
| `SyncPosts.ApplyOnePosts` | files/misp_container/sync.py:239-258 | an entry posts about its record if and only if its names resolve and the record is missing or differs |
| `SyncPosts.KeySentWhenChanged` | files/misp_container/sync.py:464-493 | what is posted of a server carries its key if and only if MISP lacks the server or the row records another key |
| `SyncSteps.EachFrame` | files/misp_container/sync.py:261-278 | a step touches only the records of its own entries, in the fields they name, whatever MISP refuses |
| `SyncSteps.EachReaches` | files/misp_container/sync.py:261-278 | a step whose entries all succeed leaves each of their records as the file asks |
| `SyncPosts.EachIsQuiet` | files/misp_container/sync.py:261-278 | a step over settled records posts nothing |
| `SyncPosts.EachAttempts` | files/misp_container/sync.py:261-278 | whichever posts are refused and whichever entries fail, an entry of a step gets a post exactly if its names resolve and its record differed when the step began |
| `SyncAttempts.SweepAttempts` | files/misp_container/sync.py:720-766 | a sweep that runs posts about exactly the unnamed records that are due, whichever of its posts are refused; `SyncAsked.OffMeans` says which are due |
| `SyncGroupPosts.StepAttempts` | files/misp_container/sync.py:642-668 | a sharing-group entry gets a post exactly if it found no group or one that was not as it asks, whichever posts are refused and whichever entries fail |
| `SyncGroupPosts.StepPosts` | files/misp_container/sync.py:642-717 | every post of a sharing-group step is that of an entry, to the group it means: its creation, the fields that differ, a missing or changed member as desired, or the removal of a changed or unwanted one |
| `SyncGroupPosts.StepBounds` | files/misp_container/sync.py:642-717 | of the groups that were there only the fields and members that an entry which finds them asks for change, and every other group is the new one of an entry |
| `SyncPosts.EachKeepsTruth` | files/misp_container/sync.py:448-493 | any step keeps the recorded digests those of the keys MISP has |
| `SyncSwept.SweepsHold` | files/misp_container/sync.py:551-553 | a sweep that succeeds leaves no unnamed record of its kind to disable; `SyncFile.ExitSweeps` says it of the fields |
| `SyncAsked.OffMeans` | files/misp_container/sync.py:741-764 | no sweep is due exactly of a server with neither push nor pull set, of user 1, a disabled user and one with an OIDC subject or external auth, and of what is not enabled |
| `SyncSwept.SweepFrame` | files/misp_container/sync.py:720-766 | a sweep touches no named record |
| `SyncSwept.TaxonomyStepReaches` | files/misp_container/sync.py:527-554 | the taxonomies' step enables the named ones and disables the others, and sweeps only if every named one succeeded |
| `SyncSwept.ListStepReaches` | files/misp_container/sync.py:557-591 | the same of warninglists |
| `SyncLinks.ServerStepReaches` | files/misp_container/sync.py:448-493 | the servers' step reaches its entries, on the fields by `SyncAsked.HeldMeans`, and writes back the row of keys |
| `SharingGroups.SyncReachesDesired` | files/misp_container/sync.py:671-717 | a membership sync that nothing fails ends at exactly the desired members; failing, it has sent a beginning of the script to this group only |
| `SharingGroups.SyncOfSettledPostsNothing` | files/misp_container/sync.py:671-717 | a group with the desired members gets no post |
| `SharingGroups.ScriptCost` | files/misp_container/sync.py:691-717 | the posts number twice the changed, plus the missing, plus the extra organisations |
| `SharingGroups.DesiredOrgsMean` | files/misp_container/sync.py:675-681 | the desired members are the IDs of the organisations under the lower-cased UUIDs, each with the extend of its last reference; there are none exactly if MISP lacks one of them |
| `SharingGroups.DesiredInOrder` | files/misp_container/sync.py:675-681 | they are in the order of the first reference to each |
| `SyncAsked.FindMeans` | files/misp_container/sync.py:647-656 | an entry means the last listed group of its UUID; without one, the last listed of its name |
| `SyncAsked.GroupReaches` | files/misp_container/sync.py:642-668 | an entry that succeeds leaves the group it means with its name, its UUID, the fields of SG_FIELDS that it sets, and exactly its organisations as members |
| `SyncAsked.GroupFails` | files/misp_container/sync.py:649-681 | an entry fails without a post if its UUID is none, without a member post if MISP lacks one of its organisations, and if the answer to its create does not name the group; it creates only if it means no group |
| `SharingGroups.ApplyGroupReaches` | files/misp_container/sync.py:642-668 | a sharing-group entry that succeeds leaves its group with the desired fields and members and its other fields as they were; `SyncAsked.GroupReaches` says which those are |
| `SharingGroups.SettledGroupIsQuiet` | files/misp_container/sync.py:642-668 | an entry whose group is as asked posts nothing |
| `SharingGroups.ApplyGroupFrame` | files/misp_container/sync.py:642-668 | an entry touches sharing groups only, whatever MISP refuses |
| `SyncGroups.FindsTarget` | files/misp_container/sync.py:647-656 | after the step each entry finds the group it was applied to |
| `SyncGroups.GroupStepSettles` | files/misp_container/sync.py:642-668 | a sharing-group step without failures settles every entry when the entries find different groups |
| `SyncUnique.SharedGroupNeverSettles` | files/misp_container/sync.py:647-668 | when two entries find one group, the step cannot settle every entry |
| `SyncWarm.WarmRunOnlyReads` | files/misp_container/sync.py:773-866 | a run over a settled MISP changes nothing, posts nothing and exits 0, whatever would be refused |
| `SyncConverge.Converges` | files/misp_container/sync.py:773-866 | from any state, a run that exits 0 leaves MISP settled, given distinct keys and entries that find different groups |
| `SyncConverge.SecondRunOnlyReads` | files/misp_container/sync.py:773-866 | the run after a run that exits 0 changes nothing, under refusals of its own |
| `SyncConverge.QuietIffSettled` | files/misp_container/sync.py:773-866 | a run succeeds without changing anything exactly over a settled MISP |
| `SyncProgress.SmoothRunExits0` | files/misp_container/sync.py:773-866 | a run in which nothing is refused exits 0 when the file's names resolve in MISP or in the file itself, which needs each refresh of the snapshot |
| `SyncProgress.SmoothRunConverges` | files/misp_container/sync.py:773-866 | from any state such a run settles MISP, and the next one posts nothing |
| `SyncProgress.GroupsSucceed` | files/misp_container/sync.py:642-717 | no post of a sharing-group step is refused by MISP itself: not as a duplicate UUID, a present or an absent member |
| `SyncUnique.ConvergesIff` | files/misp_container/sync.py:773-866 | a run that exits 0 settles MISP if and only if no two sharing-group entries found one group |
| `SyncUnique.TwoEntriesOneGroup` | files/misp_container/sync.py:647-656 | a file with distinct keys and a run that exits 0 without settling MISP |
| `SyncFile.SettledMeans` | files/misp_container/sync.py:773-866 | MISP is settled exactly if the file is in force, which is said of the entries of the file and the fields of the records alone |
| `SyncFile.ExitLeavesRecords` | files/misp_container/sync.py:773-866 | after a run that exits 0, from any state, every role, organisation, tag, user, server, taxonomy and warninglist of the file has the fields that the file gives it, and all unnamed ones are off |
| `SyncFile.ExitLeavesAll` | files/misp_container/sync.py:773-866 | after a run that exits 0 the whole file is in force, sharing groups included, when no two entries find one group |
| `SyncFile.ExitLeavesFile` | files/misp_container/sync.py:773-866 | where MISP has no two groups of one name or UUID, the file is in force after a run that exits 0 exactly if no two entries found one group |
| `SyncFile.ExitSweeps` | files/misp_container/sync.py:720-766 | after a run that exits 0 no unnamed server has push or pull set, with LDAP login off every unnamed user is disabled but user 1 and those of an identity provider, and of each key that the file has every unnamed taxonomy and warninglist is off |
| `SyncFile.SweepPostsAre` | files/misp_container/sync.py:720-766 | whatever is refused, what is posted about an unnamed record is exactly what disables it, and only of one that was on |
| `SyncAttempts.NamedStepsAttempt` | files/misp_container/sync.py:792-826 | in any run each role, organisation, tag, user and server of the file is posted about exactly if its names resolve and its record differed when its step began |
| `SyncAttempts.LaterStepsAttempt` | files/misp_container/sync.py:828-863 | so are taxonomies, warninglists and sharing groups, and each sweep that is reached posts about exactly the unnamed records that are due |
| `SyncSafety.EveryPostIsLegitimate` | files/misp_container/sync.py:773-863 | whichever posts are refused, every post is about a record of the file, or disables a record that was due, is not named, and of whose kind every named entry succeeded, or is that of a sharing-group entry to the group it means; after a failed organisations step there are no others |
| `SyncSafety.GroupsStayWithin` | files/misp_container/sync.py:842-848 | over a run, other sharing groups, the other fields of a found group and the members nobody asks to change stay as they were |
| `SyncRest.OtherKeysStay` | files/misp_container/sync.py:416-445 | the API keys of unnamed users, swept ones too, and the recorded keys of unnamed servers stay as they were |
| `SyncSafety.RunLeavesAlone` | files/misp_container/sync.py:773-863 | unnamed records that no sweep may disable, and the fields of named ones that their entries do not set, stay as they were; no other record appears |
| `SyncFile.OtherFieldsStay` | files/misp_container/sync.py:25-37 | whatever is refused, no field but the compared ones, a password and a key ever changes, kind by kind |
| `SyncSafety.ProtectedUsers` | files/misp_container/sync.py:720-747 | an unnamed user that is user ID 1, has an OIDC subject or external auth, or any unnamed user with LDAP login on, is left as it is |
| `SyncSafety.Untouched` | files/misp_container/sync.py:773-863 | a record that is not named and may not be swept is left as it is |
| `SyncKeys.RunKeepsRow` | files/misp_container/sync.py:454-492 | a run keeps every recorded digest that of the key MISP has for its server |
| `SyncKeys.RowStaysTruthful` | files/misp_container/sync.py:454-492 | so does any number of runs with any files and refusals |
| `SyncKeys.KeysInForce` | files/misp_container/sync.py:464-489 | once MISP is settled, every server has the key of the file |
| `SyncKeys.RowWritten` | files/misp_container/sync.py:490-492 | however the servers' step ends, the row has the digest of each entry that did not fail |
| `SyncEntries.DigestTellsApart` | files/misp_container/sync.py:465-466 | different keys have different digests |
| `OrgSync.Reconciler.constructor` | files/misp_container/sync.py:193-201 | a run starts from the current state of MISP |
| `OrgSync.Reconciler.ReconcileItem` | files/misp_container/sync.py:239-258 | creates or edits a record as the function of one entry says, and if it succeeds over a current snapshot the record has the entry's fields |
| `OrgSync.Reconciler.ApplyCustomList` | files/misp_container/sync.py:594-639 | applies a custom warninglist as its function says |
| `OrgSync.Reconciler.SyncMembers` | files/misp_container/sync.py:691-717 | the three loops send exactly the script of removals and additions, up to the first failure |
| `OrgSync.Reconciler.DesiredMembers` | files/misp_container/sync.py:675-681 | builds the desired members in place: the IDs of the organisations under the lower-cased UUIDs, each with the extend of its last reference, or nothing exactly if MISP lacks one of them |
| `OrgSync.Reconciler.ApplySharingGroup` | files/misp_container/sync.py:649-665 | applies a sharing-group entry as its function says |
| `OrgSync.Reconciler.EachItem` | files/misp_container/sync.py:261-278 | applies every entry, whatever became of the ones before it |
| `OrgSync.Reconciler.Unmanaged` | files/misp_container/sync.py:741-744 | collects, in the order in which MISP lists them, exactly the unnamed records that push or pull, of users those that are on and no identity provider owns, else those that are enabled |
| `OrgSync.Reconciler.RunServers` | files/misp_container/sync.py:448-493 | the servers' step with the row of keys around it |
| `OrgSync.Reconciler.RunTaxonomies` | files/misp_container/sync.py:527-554 | loads, enables, then sweeps |
| `OrgSync.Reconciler.Apply` | files/misp_container/sync.py:773-866 | a run ends in the state and with the summary of the function that the laws are about |
| `ConfiguredRuns.RowIsLastTen` | files/misp_container/db.py:277-281 | the bounded row is the last ten distinct runs since it was cleared, by their last occurrence |
| `ConfiguredRuns.InRow` | files/misp_container/db.py:265-281 | a run is in the row exactly if it was recorded since the last clear with fewer than ten other runs after it |
| `ConfiguredRuns.AfterMeans` | files/misp_container/db.py:277-281 | the runs after a run are those recorded since its last occurrence |
| `ConfiguredRuns.GateOpens` | files/misp_container/db.py:289-305 | a pod passes exactly if a run with the version and the checksum that it knows was recorded since the last clear with fewer than ten other runs after it |
| `ConfiguredRuns.SettingsRow.RecordConfigured` | files/misp_container/db.py:277-281 | appends the run to the history that the row stands for |
| `ConfiguredRuns.SettingsRow.ClearConfigured` | files/misp_container/db.py:284-286 | forgets the history |
| `ConfiguredRuns.WaitForConfigure` | files/misp_container/db.py:289-309 | passes at the first look that finds the gate open, or exits after the last |
| `RolloutRuns.AcquireConfigLock` | files/misp_container/db.py:362-387 | gets the lock at the first try that finds it free, or gives up at the first try past the deadline |
| `Rollout.StepKeeps` | files/misp_container/db.py:337-403 | every step of every process keeps the invariant of the protocol |
| `Rollout.OneHolder` | files/misp_container/configure.py:116-132 | at most one process is between its acquire and its release, whatever times out, fails or crashes, and one that ended does not have the lock |
| `Rollout.OneImport` | files/misp_container/db.py:337-354 | between two imports of the baseline the attributes table was dropped |
| `Rollout.DropNeedsForce` | files/misp_container/migrate.py:657-676 | only drop_all removes a table, only with FORCE, and from a recorded copy only with REPLACE as well |
| `Rollout.SuccessMeansComplete` | files/misp_container/migrate.py:202-233 | a recorded success is a complete copy by that process if and only if no table of it was dropped while system_settings stands; so it is whenever no drop goes on or was cut short |
| `RolloutCuts.CutLosesIff` | files/misp_container/migrate.py:229-233 | a run with FORCE and REPLACE over a complete copy has a point at which a crash leaves the record over an incomplete target if and only if a needed table is listed before system_settings |
| `RolloutCuts.CutIsReached` | files/misp_container/migrate.py:229-233 | after any history that leaves the lock free, a run reaches each such point |
| `RolloutCuts.OneLoss` | files/misp_container/migrate.py:229-233 | one history, from an empty database, that ends with the record over a target without its copied table |
| `RolloutCuts.MisledRunKeeps` | files/misp_container/migrate.py:210-226 | the next run without REPLACE keeps such a target |
| `Rollout.KeepTouchesNothing` | files/misp_container/migrate.py:657-673 | a migrate run that keeps or refuses its target leaves the database alone, before and after it decides |
| `Rollout.DecidedOnce` | files/misp_container/migrate.py:210-226 | a migrate run decides once: it refuses a target with tables and no recorded copy unless FORCE is on, keeps a recorded copy unless FORCE and REPLACE are, and copies in all other cases |
| `Rollout.DecidesRightly` | files/misp_container/migrate.py:210-226 | so it does in every interleaving |
| `Rollout.ForeignTargetNeverCounts` | files/misp_container/migrate.py:669-671 | in every interleaving a run that decides over tables without a recorded copy and without FORCE never succeeds |
| `Rollout.CopiedAtRecord` | files/misp_container/migrate.py:545-590 | when a run comes to its run record every table of the source that the target has is as the run filled it, but for the two that stay |
| `Rollout.CopyWritesOnlyThose` | files/misp_container/migrate.py:545-590 | a copy writes to no table that its source lacks, nor to the two that stay |
| `Rollout.Gate` | files/misp_container/db.py:265-309 | in every interleaving a pod passes its gate exactly if a run with the version and the checksum that it knows was recorded since the last clear with fewer than ten others after it |
| `Rollout.GateShutWhileCopying` | files/misp_container/migrate.py:674-689 | no pod passes while a target is being filled from a source without a row of configure runs, and none once a copy cleared the row |
| `RolloutRuns.Session.RunConfigure` | files/misp_container/configure.py:116-132 | a configure run is a sequence of steps of the protocol; it frees the lock however it ends, records itself exactly if it succeeds, and succeeds when nothing fails |
| `RolloutRuns.Session.RunMigrate` | files/misp_container/migrate.py:657-691 | so is a migrate run, whichever of its statements fail; it frees the lock however it ends; it decides rightly, so that over tables without a recorded copy and without FORCE it never succeeds and changes nothing; after a copy that succeeds every table of the source that the target has is this run's, no configure run is recorded and a run record stands for a complete copy of this run; when nothing fails it succeeds unless it refuses |
| `LogRelay.LinesAreTheText` | files/misp_container/logrelay.py:84-87 | the lines and the tail are the text cut at each newline |
| `LogRelay.LinesInPieces` | files/misp_container/logrelay.py:83-87 | reading in pieces with the tail held in between gives the lines of the whole |
| `LogRelay.RelayIsExact` | files/misp_container/logrelay.py:62-98 | under any appends, polls and restarts the emitted lines are the complete lines of what was read, less the unfinished line at each restart, that hold a character other than the listed white space, in order and as often as they are there; after a poll the offset is the file's size, at most max_bytes |
| `LogRelay.PollChanges` | files/misp_container/logrelay.py:62-98 | a poll empties the files that have grown past max_bytes and no other, and writes its offsets exactly if they changed |
| `LogRelay.OffsetsReload` | files/misp_container/logrelay.py:46-56 | the offsets file always reloads to the offsets in memory |
| `LogRelay.NothingLost` | files/misp_container/logrelay.py:62-98 | without a restart all that was appended up to the last poll is kept |
| `LogRelay.EveryCharacterOnce` | files/misp_container/logrelay.py:62-98 | what is kept and unread, with exactly the unfinished line of each restart put back in its place, is all that was ever appended |
| `LogRelay.Relay.constructor` | files/misp_container/logrelay.py:36-44 | a relay starts from the saved offsets and holds no tail |
| `LogRelay.Relay.Poll` | files/misp_container/logrelay.py:62-98 | one poll of every file does what the function of a poll says, and returns the number of lines; `LogRelay.RelayIsExact` and `LogRelay.PollChanges` say what that is |
| `Backoff.StartsAreSpaced` | files/misp_container/worker.py:90-105 | starts are at least a second apart, and a start after n rapid exits in a row comes 2^n - 1 seconds after the first for n up to 6, 63 + 60(n - 6) beyond |
| `Backoff.Totals` | files/misp_container/worker.py:95-96 | what the doubling delays add up to |
| `Backoff.RestartsOnTime` | files/misp_container/worker.py:90-105 | a program whose exit is found starts again at the first tick 1, 2, 4, 8, 16, 32 or 60 seconds later, by its rapid exits in a row, at once when the last was not rapid, and not before |
| `Backoff.TrailingMeans` | files/misp_container/worker.py:95 | the rapid exits in a row are the last ones, back to one that was not rapid |
| `Supervisor.OneProcessAtATime` | files/misp_container/worker.py:90-105 | between two starts of a program the log has the exit of the first process, found by a look at it or forced by SIGKILL |
| `Supervisor.Supervisor.ReapAll` | files/misp_container/worker.py:90-100 | reaps exactly the programs with a process whose exit the log then has; the log gains exits only |
| `Supervisor.Supervisor.StartAll` | files/misp_container/worker.py:102-105 | starts exactly the programs that are due, each of which the log then shows, in order |
| `Supervisor.Supervisor.Run` | files/misp_container/worker.py:128-136 | all along the log is honest: starts only where nothing is live, exits only of the live process; the starts in it are those of the backoff laws, and nothing runs at the end |
| `Supervisor.Supervisor.StopAll` | files/misp_container/worker.py:115-126 | SIGTERM to all at once, SIGKILL only past the grace, none of them runs at the end, and the wait ends within the grace and a nap |
| `Supervisor.Supervisor.Shutdown` | files/misp_container/worker.py:107-113 | starts nothing, leaves nothing running, signals the relay only after the exit of every worker, kills only what outlived its grace, and ends in time |
| `TableCopy.CutFlat` | files/misp_container/migrate.py:290-297 | a multi-row statement inserts the rows whose values it was given |
| `TableCopy.Copier.CoerceRow` | files/misp_container/migrate.py:284-287 | coerces each cell and counts the text cells that held a NUL |
| `TableCopy.CoercedMeans` | files/misp_container/migrate.py:238-281 | a boolean column takes flags, a date column no zero date, a text column the text without exactly its NULs, and every other value goes as it is |
| `TableCopy.NulsCount` | files/misp_container/migrate.py:262-267 | nul_values counts the text cells that hold a NUL, each once |
| `TableCopy.Copier.InsertRows` | files/misp_container/migrate.py:290-297 | inserts exactly the rows, in order, in statements within the parameter limit, of which only the last has room for another row |
| `TableCopy.Copier.CopyTable` | files/misp_container/migrate.py:300-327 | for every batch size the target gains the source rows in order, each cell as its column's PostgreSQL type takes it; the count is the source's and nul_values the number of text cells with a NUL |
| `Attachments.KeyOfKey` | files/misp_container/migrate.py:394-409 | a canonical key is its own key |
| `Attachments.KeyMeans` | files/misp_container/migrate.py:394-409 | a path has a key exactly if it is an event in digits and more, under shadow/ or not, in a bucket level or not; the key is the path without the bucket level |
| `Attachments.PartsMean` | files/misp_container/migrate.py:401 | a path is cut at its slashes |
| `Attachments.Bucket.Upload` | files/misp_container/s3.py:111-122 | retries exactly status 0, 500, 502, 503 and 504, at most four attempts, and stores the whole file despite bodies read half way |
| `Attachments.Bucket.Download` | files/misp_container/s3.py:159-164 | retries likewise; succeeds exactly if the last attempt does, the object is there and its body does not break off, and then the file holds the object |
| `Attachments.CopyAttachments` | files/misp_container/migrate.py:472-504 | every attachment of the paged source is attempted once and in order, up to a page that cannot be had; a normal return leaves the target with each object's own bytes, any other with nothing but copies; it returns normally when nothing fails |
| `Attachments.ArrivedAt` | files/misp_container/migrate.py:472-504 | under a canonical key is the last listed object that has it |
| `Attachments.OthersStay` | files/misp_container/migrate.py:472-504 | every key that no attachment has is untouched |
| `PhpConfig.ReadEscaped` | files/misp_container/config.py:83-84 | an escaped single-quoted string reads back as itself |
| `PhpConfig.ReadLiteral` | files/misp_container/config.py:71-84 | a literal reads back as the value's meaning, whatever follows it |
| `PhpConfig.OnlyPlain` | files/misp_container/config.py:87-99 | a name between quotes that reads as itself holds no quote, no backslash before another and none at its end |
| `PhpConfig.ReadsBack` | files/misp_container/config.py:87-99 | config.php reads back as the tree if and only if the section names and first-level keys are such names |
| `PhpConfig.NamesThatDoNot` | files/misp_container/config.py:87-99 | two section names with which the file does not read back |
| `PhpConfig.RenderConfig` | files/misp_container/config.py:87-99 | the loops print the text that the law is about |
| `Release.ChartBelowIs` | scripts/release.py:70-94 | precedence of chart versions under section 11 of SemVer 2.0.0, from its general definition |
| `Release.RaisePart` | scripts/release.py:70-80 | raises one part in place: the lowest version of a later major, of a later minor of the same major, or of a later patch of the same minor |
| `Release.NextTagIsNewest` | scripts/release.py:52-67 | the next tag is above every tag when none was made under a later pin |
| `Release.NextTagNumber` | scripts/release.py:52-67 | the next tag is of the pinned version, with the number that follows the largest one so far |
| `Release.NextChartMeans` | scripts/release.py:70-94 | the next chart goes on with the version that a pre-release prepared, or with the lowest later one of its kind, and has the suffix of a pre-release's tag |
| `Release.LatestIsNew` | scripts/release.py:58-61 | a tag above every other becomes the latest release |
| `Release.EveryReleaseIsNewest` | scripts/release.py:143-166 | over any run of releases whose pin never goes back each tag is new and the latest, and the chart version goes up exactly if the pin did not leave a work in progress for another |
| `Release.SkippedRelease` | scripts/release.py:83-94 | a pin that goes from 3.0_wip to 3.1_wip: the chart version stays after one pre-release and goes down after two |

## Left out

- Values.ValuesEqual: models strings, integers, flags and null; Python's text of floats and nested values is not modelled.
- SyncItems.Digest: SHA-256 is an injective function, and checks of a password or an API key are equality with what
  was last set.
- SyncItems.BuildRules: the JSON text of a server's rules is a constructor, and two rules are equal if their lists are.
- SyncItems.Wanted: `load_config`'s normalisation is taken for granted: required keys are there, defaults are filled in,
  environment references are replaced.
- MispWorld.Effect: records are addressed by their natural key rather than by ID, reads and database writes never fail, and
  MISP keeps what it is sent.
- SyncConverge.Converges: takes a run that is not killed between two steps; `SyncSafety` and `SyncKeys` hold up to any
  refusal, not up to a kill in the middle of a step.
- OrgSync.Reconciler.EachItem: returns the outcomes in place of the counts in the log line.
- Rollout.Step: what `cake` does to tables is any change that keeps them and adds none of the two that the protocol looks
  at; a lock connection lost while its process lives on is not modelled, nor an SQL error that `query_ok` takes for an
  empty database, nor the counters of `record_run`.
- Rollout.GateShutWhileCopying: takes a source without a row of configure runs; with one, pods of those runs pass from
  the moment the copied row arrives until the run clears it.
- LogRelay.RelayIsExact: takes ASCII text, and no file that someone else truncates or removes; a line appended between the
  read and the truncate of one poll is lost, as the source says.
- Supervisor.Supervisor.Run: the SIGTERM arrives in the last pass, and a process that gets SIGKILL ends.
- TableCopy.Copier.CopyTable: takes at least one column and at most as many as a statement may have parameters; the
  indexes and sequences around the copy are left out.
- Attachments.Bucket.Download: a body that ends early is an error; where the HTTP client takes one for complete, the copy
  does too.
- Attachments.CopyAttachments: between two buckets only. From or to a volume the same requests are used without the
  spool; on two volumes a file of the same size is skipped, so that equal content does not follow.
- Attachments.AttachmentKey: digits are ASCII digits.
- PhpConfig.Literal: floats, and PHP's cast of numeric string keys.
- Release.Next: tags and chart versions are their parts, so numbers with leading zeros and `-r0` are not told apart from
  their plain forms; the lookup in GHCR, git and the edit of Chart.yaml are left out.
- Sharing groups whose entry has no name, and two malformed warninglist entries at once.
- `render_log_block` of `init.py`: one cut and one concatenation.
- Signing of S3 requests, TLS, the drivers of PostgreSQL, MySQL and Redis, `cake` processes, file rendering to disk.
- `metrics.py`, `exporter.py`, `web.py`, `task.py`, `housekeeping.py`, `admin.py`, `api.py`, `cake.py`, `log.py`,
  `env.py`, and the scripts besides `release.py`.
