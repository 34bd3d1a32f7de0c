# A verified model of the PostgreSQL service agent

The agent runs PostgreSQL for services that are started, migrated, shared, reloaded and stopped
by many processes at once. This project models the parts of it whose correctness rests on an
argument rather than on one function body, and proves them for every input, every run and every
interleaving. It is one Dafny project: `dafny verify dfyconfig.toml` checks all of it.

## What is modelled

**The run server shared by the agents of a run** (`nixpg.go`). `RunServer` is the machine: the
process table with births and executables, every agent's place in its code, and the files of each
run's root, namely the lock, the holder records, the recorded postmaster and `postmaster.pid`. A run
is a sequence of labels, and a label carries whatever the program does not decide: what an
inspection answered (an identity, "not found", or a failure), which PID was handed out, what
died. `RunServerSafety` shows that a cluster never has two live postmasters, and `RunServerSignals`
whom a stop signal reaches and while whom it is never sent. `RunServerExact` and
`RunServerSignalsExact` show that no hypothesis of these theorems can be weakened: from every state
the invariant allows, a step that breaks one can be continued, without any further fault, to the
harm that the theorem excludes. `RunServerCounterexamples` has one run from an initial state for
each hypothesis. `RunServerLiveness` shows what the machine gets done: abandoned servers are
collected, and a service comes up whenever nothing stands in its way. `RunRoot` is the same code in the form it has, loops over files under one lock,
proved against the answers its inspections gave and the order it was given them in.

**Provisioning a database on it** (`provisionDatabase`). `Provision` has the untransacted
statements, cut off anywhere, and shows that a retry ends exactly where an uncut call would
have. `ProvisionRuns` interleaves the statements of any calls with the roles and databases that
migrations create meanwhile.

**Runtime access** (`libs/go/controlplane/access.go`, `runtime_access.go`, `libs/go/bootstrap`).
`Catalog` is the catalog and its transaction, in which any statement may fail. `RuntimeAccess`
runs the grant and revoke loops and states their outcome without any loop. `RuntimeLogins` runs
the whole transaction over the managed and the declared logins. `ManagedBinding` adds the external
principals, whose four passes edit one edge relation. `RoleNames` derives the names all of this
depends on.

**The control-plane locks** (`runtime.go`, `migrations.go`, `hotreload.go`,
`libs/go/bootstrap/run.go`). `ControlPlane` has the agents' threads, the in-process lock, the
reload mutex, the bootstraps with their children, the server's sessions and the one advisory lock.
`ControlPlaneSafety` proves that migrations and grants never overlap while bootstraps let go of the
lock in order, `ControlPlaneExact` that exactly this order is needed, and `ControlPlaneAbandoned`
who is left holding the lock, in every run. `ControlPlaneLiveness` shows that every kind of work can
complete and gives back all it took. `ControlPlaneCounterexample` has the runs in which it goes
wrong. `HotReload` is one watched change and the ledger it may move.

**The IPC planner** (`hostipc_darwin.go`). `IpcPlan` says which semaphore sets may be named, over
sets of rows and with no scan, and what a plan must and must not name, on the rows as they are
listed; `IpcPlanner` is the scanning code, proved to compute exactly that.
`IpcRemoval` carries a plan out and reports on it.

**The schema package** (`schemaplan.go`, `schema.go`, `libs/go/schemaplan`, `libs/go/bootstrap`).
`MigrationNames` gives the file name pattern a meaning, `SchemaDigest` the hashed encodings,
`SchemaSnapshot` the verifier, and `SchemaPackage` the builder with the exact condition under which
the verifier accepts what the builder made.

**Smaller exact algorithms.** `JsonEscapes` and `SealRewriter` (sections 7 and 8.2 of RFC 8259),
`Forwarder` (the close protocol of `forward.go`), `LogLines` (`pglog.go`), `Extensions` and `Mounts`.

`Options`, `Names`, `Sorting` and `IpcRows` are shared definitions.

## Findings

The code does not meet the promise on all inputs in these places; each has a concrete witness and
the condition under which the promise holds.

- `waitGone` reads a failed inspection as "gone" (`nixpg.go:978-987`). When the stopped postmaster
  still runs, the next start can put a second one on the cluster:
  `RunServerCounterexamples.FooledWait`. An abandoned `pg_ctl` that lands between the stop and the
  removal of the lock file does the same: `LateLaunchInWindow`. These two are all:
  `RunServerExact.CarefulExactly` and `CarefulOverRuns`.
- A PID reused between `pg_ctl`'s report and the recording makes a stranger the recorded postmaster,
  which is then signalled (`nixpg.go:331-343`): `ReusedBeforeRecording`. It never leads to two
  postmasters. Exactly when: `RunServerSignalsExact.TimelyExactly` and `TimelyOverRuns`.
- A holder file that cannot be read is pruned like a dead one (`nixpg.go:805-815`), so a served
  agent's server can be signalled: `UnreadHolder`. So can that of an agent whose service a second
  agent attaches for, since the two share one holder file: `TwoAgentsOneService`. Exactly when:
  `RunServerSignalsExact.AttendedIsNeeded` and `AttendedOverRuns`.
- When `drainChild` gives up while the child's backend still runs (`libs/go/bootstrap/run.go:190-196`),
  closing the connection releases the lock and an agent's grants can run beside that migration:
  `ControlPlaneCounterexample.FailedDrain`. A bootstrap that is killed while its child lives, or
  loses its control connection while a child runs or is still to be started, does the same:
  `KilledBootstrap`, `LostControlConnection`. Exactly when: `ControlPlaneExact.TightExactly` and
  `TightOverRuns`.
- A client that gives up its wait for the lock, or a statement that still runs, closes its pool
  without the backend's answer (`migrations.go:230-334`). The backend can then be handed the lock, or
  keep it, with no client left, for as long as it lives: `AbandonedWaitTakesTheLock`. The same agent's
  next call waits for it: `WaitsForItsOwn`. Exactly when: `ControlPlaneAbandoned.OrphansAreAbandoned`.
- The first contract's plan encoding is ambiguous between neighbouring lists
  (`libs/go/schemaplan/plan.go:67-68`): `SchemaDigest.CountsAreNeeded`; `PlanInjectiveExactly` is the
  exact condition.
- The builder stages a file name holding a backslash, and the verifier refuses it
  (`schemaplan.go:116-118`, `libs/go/bootstrap/package.go:172-174`):
  `SchemaPackage.BackslashIsStagedThenRefused`; `BuiltPackageAcceptedExactly` is the exact condition.
- The binding check takes a reader role with space around it (`libs/go/bootstrap/package.go:175-201`),
  and the engine refuses the record made of it (`libs/go/controlplane/access.go:201-206`) once the
  migrations have run: `ManagedBinding.PaddedReaderRole`. Exactly when:
  `AcceptedRecordIsValidExactly`.

## Model

| member | source | states |
|---|---|---|
| `RunServerSafety.OwnershipStep` | nixpg.go:462-517 | One step keeps "every live postmaster is the one its lock file names" exactly when it does not remove the lock file of a live one. |
| `RunServerSafety.OwnershipOverRuns` | nixpg.go:462-517 | The same over whole runs, both ways and with no hypothesis: ownership holds throughout if and only if no step removed a live postmaster's lock file. |
| `RunServerSafety.BaseStep` | nixpg.go:249-262 | Every step of any agent, crash, kill or PID reuse keeps each root's lock with the one agent acting on it, and every record and signalling agent within the history of recordings. |
| `RunServerSafety.SoundRemoval` | nixpg.go:489-517 | In a sound state no agent removes the lock file of a cluster that a live postmaster holds. |
| `RunServerSafety.SignalledIsOnly` | nixpg.go:917-952 | A postmaster that still runs on the cluster when a stop is signalled is the recorded one. |
| `RunServerSafety.SoundExactly` | nixpg.go:917-987 | A step from a sound state keeps the invariant if and only if it is careful: the wait is not told "gone" about the cluster's live postmaster, and no orphaned pg_ctl lands while its lock file is about to go. |
| `RunServerSafety.SinglePostmaster` | nixpg.go:214-247 | In every careful run at most one live postmaster runs on a cluster: PID reuse at any point, lost records, crashed agents and starts failing after pg_ctl included. |
| `RunServerExact.CarefulExactly` | nixpg.go:978-987 | A step from a sound state is careful if and only if no continuation without a further fault puts a second postmaster on any cluster. |
| `RunServerExact.CarefulOverRuns` | nixpg.go:978-987 | Over whole runs from an initial state: every step was careful if and only if no state on the way can be so continued. |
| `RunServerSignals.SignalsReachTheRecorded` | nixpg.go:917-964 | In every run a stop signal is sent only under the root's lock and only to a live process whose PID, start id and boot id were recorded for that root. |
| `RunServerSignals.RecordedUnderLock` | nixpg.go:331-343 | A birth enters a root's record only when the lock's holder finds it alive behind the cluster's lock file. |
| `RunServerSignals.SignalsReachTheOwnPostmaster` | nixpg.go:955-964 | With no PID reused before its birth is recorded, what is signalled is the root's own live postmaster. |
| `RunServerSignalsExact.TimelyExactly` | nixpg.go:331-343 | A birth is recorded in time if and only if no continuation without a further fault signals a process that is not the root's postmaster. |
| `RunServerSignalsExact.TimelyOverRuns` | nixpg.go:331-343 | The same over whole runs from an initial state. |
| `RunServerSignals.AttendedExactly` | nixpg.go:772-817 | A step keeps every served agent on record and counted if and only if it reads the served agents' holder files and gives no service a second agent. |
| `RunServerSignals.ServedIsNeverSignalled` | nixpg.go:772-817 | With one agent per service and readable holder files, no signal is sent while an attached agent lives and its launching run lives. |
| `RunServerSignalsExact.AttendedIsNeeded` | nixpg.go:793-817 | A step meets these two hypotheses if and only if no continuation without a further fault signals the server of a served agent, whether that server is recorded and alive or has to be started first. |
| `RunServerSignalsExact.AttendedOverRuns` | nixpg.go:793-817 | The same over whole runs from an initial state. |
| `RunServerCounterexamples.FooledWait` | nixpg.go:978-987 | A run, ending in two live postmasters, in which a failed inspection is read as the end of the stopped one. |
| `RunServerCounterexamples.LateLaunchInWindow` | nixpg.go:917-952 | A run, ending in two live postmasters, in which an orphaned pg_ctl lands between the stop and the removal of the lock file. |
| `RunServerCounterexamples.ReusedBeforeRecording` | nixpg.go:331-343 | A run in which a reused PID is recorded as the postmaster and an unrelated process is signalled. |
| `RunServerCounterexamples.UnreadHolder` | nixpg.go:793-817 | A run in which an unreadable holder file lets a collection signal the server of a served agent. |
| `RunServerCounterexamples.TwoAgentsOneService` | nixpg.go:772-788 | A run in which the second of two agents attached for one service leaves and signals the server of the first. |
| `RunServerLiveness.AbandonedServerIsCollected` | nixpg.go:993-1018 | From any state in which every holder of a root, or the run that launched it, is dead and the lock is free, an idle agent that is told the truth can end the recorded postmaster, and the server, its record, its lock file, its holder files and the lock are gone. |
| `RunServerLiveness.ServiceComesUp` | nixpg.go:197-247 | From any state in which the lock is free and nobody serves the service, an idle agent can attach with its holder file written to a recorded, live and reachable server, if the cluster has one or if nothing holds it. |
| `RunRoot.ServerRoot.PruneHolders` | nixpg.go:793-817 | What stays was answered alive in this call, what went was unreadable or answered gone, the count is the number that stays, and nobody is signalled. |
| `RunRoot.ServerRoot.ClearDisownedPostmasterPid` | nixpg.go:489-517 | The process that the lock file names is asked for when a probe finds it, and the file goes exactly when it names no live process or one that is then answered to be no postmaster; otherwise it is untouched and the caller refused. |
| `RunRoot.ServerRoot.AttachedPostmaster` | nixpg.go:462-471 | The recorded server is attached exactly when it has a socket directory and the inspection answers that its birth is alive; "not running" leaves no lock file in the way; the caller is refused only on a last answer, about the process the lock file names, that did not rule a postmaster out. |
| `RunRoot.ServerRoot.StopServer` | nixpg.go:917-952 | A recorded birth is always asked for, and when confirmed signalled; signals go to it alone, at most twice, each right after an answer that confirmed it. The stop fails exactly when the last answer still confirms the birth; socket directory and lock file go exactly when a signal went out and the last answer no longer confirmed it; the record goes with every stop that does not fail. |
| `RunRoot.ServerRoot.Release` | nixpg.go:878-907 | When the last holder leaves, the recorded birth is asked for, signalled and waited for as in a stop, and the result says whether it was seen through; while a holder remains nobody is signalled and no file but holder files is touched. |
| `Provision.Session.ProvisionDatabase` | nixpg.go:675-765 | A call runs exactly when its owner carries no membership and its database is absent, or owned by that owner and unclaimed or its own; refused, it changes nothing; otherwise it has run a prefix of its plan, all of it when it succeeds. |
| `Provision.RefusalIsLocal` | nixpg.go:684-719 | Whether a call is refused depends on its own owner role and its own database alone. |
| `Provision.PlanCompletes` | nixpg.go:705-765 | A call that is not refused can always run to its end, and ends with its role, password, owner, claim and closed database in place and nothing else changed. |
| `Provision.RetryResumes` | nixpg.go:705-765 | Cut off after any statement, a call is not refused when retried, and the retry ends in exactly the state an uncut call reaches. |
| `ProvisionRuns.StartsItsPlan` | nixpg.go:675-765 | The statement-by-statement machine runs exactly the plan of the call's look-ups. |
| `ProvisionRuns.InvStep` | nixpg.go:675-765 | Whatever migrations create between two statements, what the call under way relies on at its stage stays true. |
| `ProvisionRuns.OthersNeverRefuse` | nixpg.go:684-719 | Whatever other services provision and migrate meanwhile, in any run, a call is refused after it exactly when it was before. |
| `ProvisionRuns.SuccessIsComplete` | nixpg.go:705-765 | A success leaves everything in place, owned by a role no migration created. |
| `ProvisionRuns.OneServicePerDatabase` | nixpg.go:684-703 | In every run, once a service's call has succeeded on a database, every later success on it is by the same service. |
| `ProvisionRuns.ForeignIsNeverAdopted` | nixpg.go:696-723 | A database made by another service's migration, or whose owner role one made, never sees a success in any run. |
| `Catalog.Transaction.Execute` | libs/go/controlplane/access.go:101-104 | What each grant or revoke does to every single grant of the catalog. |
| `RuntimeAccess.ValidateRuntimeAccess` | libs/go/controlplane/access.go:172-229 | Accepts exactly the access records that are complete, consistent with their mode, and whose reader roles are well formed and distinct from every other role. |
| `RuntimeAccess.StatementsNet` | libs/go/controlplane/access.go:107-141 | After a schema's statements, what the schema decides is held exactly when due, and every other grant is as before. |
| `RuntimeAccess.ReconcilePrivileges` | libs/go/controlplane/access.go:95-147 | The two loops leave exactly the due privileges on everything listed, from any prior catalog. |
| `RuntimeAccess.ExactPrivileges` | libs/go/controlplane/access.go:95-147 | Privilege by privilege for databases, schemas, tables, sequences and defaults: what the reader and writer hold, that no other role's changed, and that PUBLIC loses schema CREATE alone. |
| `RuntimeAccess.EnsureGroupRole` | libs/go/controlplane/access.go:283-319 | The group ends without login and without any attribute; it fails only when the server does, or when a session that is no superuser meets a protected attribute the group holds. |
| `RuntimeAccess.ReconcileRoleMemberships` | libs/go/controlplane/access.go:388-440 | The member's memberships become exactly the configured roles, all other edges stay; on success none of the roles can log in, is a superuser or may create databases or roles; it fails only when the server does or a role is missing or holds one of these. |
| `RuntimeAccess.ReconcileExternalPrincipals` | libs/go/controlplane/access.go:327-386 | The group's members become exactly the principals, all other edges stay; it fails only when the server does or a principal neither exists nor is a member. |
| `RuntimeAccess.ReconcileRuntimeAccess` | libs/go/controlplane/access.go:77-170 | A success reconciles privileges, edges and attributes exactly and delegates no role that can log in or holds authority; a valid record succeeds if and only if the server does not fail and none of the listed obstacles stands in the catalog; an invalid record touches nothing. |
| `RuntimeAccess.SecondRunChangesNothing` | libs/go/controlplane/access.go:77-170 | Reconciling an already reconciled catalog leaves it as it is. |
| `RuntimeAccess.ReaderGainsNothing` | libs/go/controlplane/access.go:195-209 | After a reconciliation with reader roles the reader is a member of those alone, and none of them is the owner, a group, a read-write role or a principal. |
| `RuntimeAccess.NobodyLeftShort` | libs/go/controlplane/access.go:95-147 | After reconciling a valid record in password mode both roles can connect and use a listed schema, and the writer may insert into what the owner makes in any of them, or else belongs to every role it is delegated. |
| `RuntimeLogins.EnsureLoginRole` | runtime_access.go:477-517 | The role ends with login and no inheritance or elevated attribute, its password and its read-only setting; it fails only when the server does, or for a protected attribute the role held. |
| `RuntimeLogins.Settles` | runtime_access.go:431-467 | After its pass a principal's memberships are exactly its set, its default role is the first of it and a membership (cleared when empty), and direct DML exists only for an empty set. |
| `RuntimeLogins.StaysSettled` | runtime_access.go:444-467 | Reconciling one login leaves another exactly as it was. |
| `RuntimeLogins.EnsureRuntimeAccess` | runtime_access.go:374-475 | From any prior catalog a commit leaves the managed writer, every declared login and the reader settled, on the tables and sequences of the configured schemas (public when none is) and on what the owner makes there later, and everybody else untouched; any failure leaves the server as it was; and it commits if and only if the settings are in order, no role stands in the way at its turn and the server does not fail. |
| `RuntimeLogins.OutcomeSpelled` | runtime_access.go:374-475 | The committed outcome in terms of the settings alone: which names log in with which password and nothing else, with exactly which trimmed roles, starting as the first of them; the reader in read-only sessions. |
| `ManagedBinding.ValidateBinding` | libs/go/bootstrap/package.go:179-209 | Accepts exactly bindings whose roles are all valid and distinct across every list, with principals for both groups and distinct valid schemas. |
| `ManagedBinding.PassesAgreeExactly` | libs/go/controlplane/access.go:150-169 | Both groups' members always end exact; the writer's and reader's memberships do if and only if the configuration agrees on the four edges between the groups. |
| `ManagedBinding.AcceptedBindingIsExact` | libs/go/bootstrap/run.go:207-217 | An accepted binding reconciles to exactly its members and its delegated roles, under the second contract the reader's too; no group is without members, and owner and groups are not members of each other. |
| `ManagedBinding.AcceptedRecordIsValidExactly` | libs/go/bootstrap/run.go:207-217 | The record made of an accepted binding is one the engine accepts if and only if no reader role has space around it. |
| `ManagedBinding.PaddedReaderRole` | libs/go/bootstrap/package.go:175-201 | A reader role with a space before it that the binding check takes and the engine refuses. |
| `ManagedBinding.OverlapLosesARole` | libs/go/controlplane/access.go:327-330 | Without the distinctness a delegated role is undone by a later pass. |
| `RoleNames.RuntimeRolePrefix` | runtime_access.go:241-264 | The loop over the lowered name computes the prefix whose shape the next four rows give. |
| `RoleNames.PrefixSpelled` | runtime_access.go:241-264 | The fixed start and the hash of the full name, and between them 1 to 24 characters: words of ASCII letters and digits with single underscores between them, which are the lowered name's first ones, all of them when there is room, and "database" when the name has none. |
| `RoleNames.PrefixIsLower` | runtime_access.go:241-264 | The prefix is of small letters, digits and underscores. |
| `RoleNames.PrefixTellsApart` | runtime_access.go:71-73 | Databases with different hashes have different roles, however alike their shortened names are. |
| `RoleNames.PrefixFits` | runtime_access.go:71-73 | The prefix is ASCII and at most 41 bytes, whatever the database is called. |
| `RoleNames.RolesFit` | runtime_access.go:71-73 | Every login role is at most 58 bytes, and the managed roles fit too. |
| `RoleNames.DerivedRolesAreIdentifiers` | runtime_access.go:235-264 | The reader, the writer and every login role of any database are safe identifiers themselves. |
| `RoleNames.NormalizedReadWriteRoles` | runtime_access.go:289-310 | Refused exactly when some trimmed role is empty, has a character other than ASCII letters, digits and underscore, or is a managed one; the result keeps first mentions. |
| `RoleNames.FirstMentionsAre` | runtime_access.go:322-327 | The normalized list is the configured one as a set, without repetition, and starts with the same role. |
| `RoleNames.FirstMentionsInOrder` | runtime_access.go:289-310 | The normalized list keeps the order in which its roles are first mentioned. |
| `RoleNames.ResolveRuntimeLogins` | runtime_access.go:85-132 | Refused exactly when logins are declared for an external identity or external instances, two share a name, or one has a name out of form or reserved, a managed role's name, no role or an unfit one; each login is otherwise derived from its own declaration. |
| `RoleNames.AcceptedLoginsApart` | runtime_access.go:85-132 | All roles, password keys and connection keys of an accepted list are pairwise distinct and distinct from the managed reader, writer and owner ones. |
| `ControlPlaneSafety.InvStep` | runtime.go:115-137 | Every step of any agent, bootstrap, child or session keeps the lock discipline, as long as bootstraps keep the lock until their child is drained. |
| `ControlPlaneSafety.MigrationsAndGrantsNeverOverlap` | runtime_access.go:342-354 | In every such run no migration executes beside a grants run, no two grants runs overlap, and two migrations only inside one child. |
| `ControlPlaneSafety.KidMeansOwner` | libs/go/bootstrap/run.go:161-201 | While a session of a bootstrap's child lives, the bootstrap's own session holds the lock and does no work. |
| `ControlPlaneExact.InvExactly` | libs/go/bootstrap/run.go:161-201 | A step keeps the discipline if and only if it is tight. |
| `ControlPlaneExact.TightExactly` | libs/go/bootstrap/run.go:190-201 | A step from a state in order is tight if and only if no tight continuation has a grants run beside a migration: a drain failing with a session alive, a death with a child or a session of one, a control connection lost while a child runs, is due or has left a session. |
| `ControlPlaneExact.TightOverRuns` | libs/go/bootstrap/run.go:190-201 | Over whole runs: all steps were tight if and only if no state on the way can be so continued. |
| `ControlPlaneAbandoned.OrphansAreAbandoned` | migrations.go:230-334 | In every run a living session is orphaned if and only if a step walked away from it, by giving up on a statement or a wait the backend had not answered or by dying, and no thread is still about to close it. |
| `ControlPlaneAbandoned.NeverLeftHeld` | migrations.go:230-334 | In every run, after a failed open, a closed handle or a finished transaction and at any later time, the session is gone and holds nothing, unless a step walked away from it. |
| `ControlPlaneAbandoned.OwnerIsAccountable` | migrations.go:230-250 | In every run the lock's holder is a session its thread or bootstrap is still using, or one that a step walked away from; never a child's. |
| `ControlPlaneAbandoned.WaitsWithNothingHeld` | runtime.go:849-879 | In every run, of all sessions an agent's threads ever opened, a thread waiting for the lock has only its own left, which does not hold it; any other that lives is an abandoned orphan. |
| `ControlPlaneSafety.ReloadIsNeverContended` | hotreload.go:121-122 | Taken inside the control plane, the reload mutex is free whenever it is wanted. |
| `ControlPlaneLiveness.CallCompletes` | migrations.go:168-334 | With the advisory lock free, a call of any number of lineages can migrate them all, run its grants and leave, and has then given back the lock, its sessions and the control plane. |
| `ControlPlaneLiveness.HotCallCompletes` | hotreload.go:106-183 | So can the handling of a watched change, which gives back the reload mutex too. |
| `ControlPlaneLiveness.BootstrapCompletes` | libs/go/bootstrap/run.go:139-227 | From any state in order with the lock free, a new bootstrap of any number of lineages can run and drain a child for each, and then its grants, and leaves no session, no child and no lock. |
| `ControlPlaneCounterexample.FailedDrain` | libs/go/bootstrap/run.go:190-196 | A run in which a failed drain releases the lock and grants run beside the child's migration. |
| `ControlPlaneCounterexample.KilledBootstrap` | libs/go/bootstrap/run.go:184-196 | A run in which a killed bootstrap's child connects afterwards and migrates beside grants. |
| `ControlPlaneCounterexample.LostControlConnection` | libs/go/bootstrap/run.go:190-196 | A run in which the control connection is lost while the child migrates, with the same end. |
| `ControlPlaneCounterexample.AbandonedWaitTakesTheLock` | migrations.go:293-299 | A run in which an open gives up its wait and closes, and its orphaned backend is handed the lock. |
| `ControlPlaneCounterexample.WaitsForItsOwn` | migrations.go:230-334 | A run in which an agent, having given up on a migration, waits for the lock its own backend still holds. |
| `HotReload.Lineage.Up` | migrations.go:370-391 | The contract of the forward call: a dirty ledger stays as it is, otherwise pending versions run in ascending order, and the ledger ends dirty exactly when the script under way failed, at its version. |
| `HotReload.OwningMigrationSource` | hotreload.go:86-99 | The one source whose directory is the file's parent, nobody when there is none, and a refusal exactly when there are two. |
| `HotReload.ApplyMigrationChange` | hotreload.go:106-183 | A change moves only the one lineage that owns an up-file, only above the version applied; a down-file or a file out of form is ignored; on a clean ledger below it the forward call is made, and is refused only where it failed or left no version; a dirty ledger, one at the file's version or above, or a file outside moves nothing. |
| `IpcRows.SortedUnique` | hostipc_darwin.go:139 | Rows in strictly increasing key order are determined by which rows they are. |
| `IpcPlan.EveryRowInOneRun` | hostipc_darwin.go:151-182 | The maximal runs of consecutive keys partition the rows. |
| `IpcPlan.EveryRowInOneCluster` | hostipc_darwin.go:195-218 | The greedy clusters of one creation time partition its rows. |
| `IpcPlan.PlanIgnoresOrder` | hostipc_darwin.go:139-222 | Two listings of the same rows in any order have one and the same plan. |
| `IpcPlan.PlanIsSafe` | hostipc_darwin.go:100-223 | Every named set has the owner, mode and size of PostgreSQL's, lies outside the 1024 keys that each live control segment guards, and is in a run beside a dead segment or near another named set of the same creation time. |
| `IpcPlan.UnknownTimeNeedsQuiet` | hostipc_darwin.go:166-218 | A set of unknown creation time, in no run beside a dead segment, is named only from a span of 1024 keys in which no such set is guarded. |
| `IpcPlan.NamedBesideAbandoned` | hostipc_darwin.go:157-182 | Every set of an unguarded stretch of consecutive keys that begins one past an abandoned control segment's key is named, a lone one included. |
| `IpcPlan.NamedTogether` | hostipc_darwin.go:163-182 | Every set of an unguarded stretch of two or more consecutive keys of one known creation time is named. |
| `IpcPlan.AtMostOneUnnamed` | hostipc_darwin.go:184-219 | Holes do not save a run: of the sets of one creation time within 1024 keys, unguarded and with none of that time just before, at most one is not named. |
| `IpcPlan.SharedPlanExactly` | hostipc_darwin.go:117-131 | Of the shared segments exactly the control segments are named that nobody is attached to and whose creator is dead. |
| `IpcPlanner.SelectRuns` | hostipc_darwin.go:151-182 | The first scan selects exactly the sets of picked runs. |
| `IpcPlanner.SelectClusters` | hostipc_darwin.go:193-218 | The second scan adds exactly the sets of picked clusters of one group. |
| `IpcPlanner.SelectGroups` | hostipc_darwin.go:188-219 | Visiting the creation times in any order adds exactly what the clusters pick. |
| `IpcPlanner.RemovalPlan` | hostipc_darwin.go:100-223 | The whole planner returns, strictly increasing and without duplicates, exactly the ids the plan names, for sets and for shared segments. |
| `IpcRemoval.RemovalBatches` | hostipc_darwin.go:369-391 | Every planned resource is handed to some command exactly once, 256 to a command, and no command is cut between a flag and its id. |
| `IpcRemoval.ArgumentsAre` | hostipc_darwin.go:369-391 | The arguments are, resource by resource, the flag for shared segments exactly for one and then its id. |
| `IpcRemoval.RecoveryVerdict` | hostipc_darwin.go:313-366 | Counts exactly what is gone, whoever removed it, and fails exactly when something planned is still listed. |
| `MigrationNames.MatchIsThePattern` | libs/go/schemaplan/plan.go:16 | The scan finds exactly the readings the file name pattern has, and there is never more than one. |
| `SchemaDigest.ContentDigest` | libs/go/schemaplan/plan.go:54-77 | The writing loops hash exactly the NUL-terminated tokens of the plan. |
| `SchemaDigest.LineageContentDigest` | libs/go/schemaplan/plan.go:79-86 | The same for one lineage. |
| `SchemaDigest.TokensInOrder` | libs/go/schemaplan/plan.go:54-77 | What is hashed, place by place: under the second contract alone the reader roles with their count, then four tokens a lineage. |
| `SchemaDigest.AccessInOrder` | libs/go/schemaplan/plan.go:54-77 | And before these: contract, database, two tokens an extension, reader, writer, schemas and read-write roles. |
| `SchemaDigest.LineageInOrder` | libs/go/schemaplan/plan.go:79-86 | A lineage's tokens: label, ledger, and each file's name and digest. |
| `SchemaDigest.EncodeInjective` | libs/go/schemaplan/plan.go:56-61 | Tokens free of NUL can be read back from what was hashed. |
| `SchemaDigest.LineageInjective` | libs/go/schemaplan/plan.go:79-86 | A lineage's preimage determines its label, ledger and every file. |
| `SchemaDigest.PlanInjectiveExactly` | libs/go/schemaplan/plan.go:54-77 | Two plans with one preimage are the same if and only if they agree on the number of extensions, schemas and read-write roles. |
| `SchemaDigest.CountsAreNeeded` | libs/go/schemaplan/plan.go:67-68 | Two different first-contract plans with one preimage. |
| `SchemaDigest.IdentityFixesContent` | libs/go/schemaplan/plan.go:54-86 | Under a hash without collisions, equal identities of attested plans with those counts fix every file of every lineage. |
| `SchemaSnapshot.SnapshotFiles` | libs/go/bootstrap/package.go:115-158 | One lineage's directory is accepted exactly when inventory, order, versions, conflicts and digests are right, and the copy is then that directory. |
| `SchemaSnapshot.Snapshot` | libs/go/bootstrap/package.go:66-170 | The package is accepted exactly when identity, lineages and extensions are right; the private copy then holds exactly the attested files and bytes. |
| `SchemaSnapshot.AcceptanceAttests` | libs/go/bootstrap/package.go:66-170 | What an accepted package attests, on its bytes: the bound digest is the hash of what the plan says, every lineage's directory holds exactly its listed files with the digests they have, stages, ledgers, claims and extensions are apart. |
| `SchemaSnapshot.BoundDigestFixesBytes` | libs/go/bootstrap/package.go:66-170 | Under a hash without collisions, two packages accepted for one bound digest, whose plans agree on the three counts, hold the same lineages with the same bytes. |
| `SchemaPackage.DeclaredSources` | schema.go:156-190 | Accepted exactly when the trimmed names are of ASCII letters, digits and underscores, fit the ledger's identifier and are distinct. |
| `SchemaPackage.StagedFiles` | schemaplan.go:109-134 | Refuses exactly when a migration entry links outside or is special; otherwise the staged names, sorted. |
| `SchemaPackage.StagedExactly` | schemaplan.go:109-134 | A directory's staged names and bytes are exactly its migrations', those of links that stay inside included. |
| `SchemaPackage.BuildSchemaPlan` | schemaplan.go:70-92 | Refused exactly when the schemas or delegated roles are not acceptable or, with migrations on, an entry links outside or is special; otherwise the access with the normalized lists and one planned lineage per source in order, none when migrations are off. |
| `SchemaPackage.PlannedSpelled` | schemaplan.go:84-88 | A lineage goes by its source's name or "store", its ledger by that name, its stage by its place and label. |
| `SchemaPackage.ResolveSchemaAccess` | schemaplan.go:220-236 | Refused exactly when a schema or a delegated role is unfit or the latter one of the two groups; the result is the two groups by name and the lists at first mentions, public when no schema is configured, and no reader roles. |
| `SchemaPackage.AttestLineage` | schemaplan.go:158-171 | Every file gets its content's digest and the lineage its own. |
| `SchemaPackage.StagesApart` | schemaplan.go:84-88 | The ordinal keeps two staged locations apart whatever the labels are. |
| `SchemaPackage.BuiltPackageAcceptedExactly` | libs/go/bootstrap/package.go:100-158 | What the builder planned, attested and staged passes every lineage check if and only if each source has a staged file, plain component names, versions that fit 64 bits, and no version and direction twice. |
| `SchemaPackage.PublishedPlanAcceptedExactly` | schemaplan.go:248-285 | The published plan as a whole passes exactly when, besides, its extensions are valid and the bound digest is its own. |
| `SchemaPackage.CopyHoldsTheSource` | libs/go/bootstrap/package.go:100-158 | The private copy of an accepted lineage holds its source's staged files and bytes and nothing else. |
| `SchemaPackage.BackslashIsStagedThenRefused` | libs/go/bootstrap/package.go:172-174 | A file name the builder stages and the verifier refuses. |
| `SchemaPackage.CheckConflicts` | migrations.go:112-133 | Accepts exactly the names without two that parse to one version and direction. |
| `SchemaPackage.ConflictFreeAlike` | migrations.go:112-133 | The runtime's conflict check and the verifier's agree on names whose versions fit. |
| `Extensions.ResolveExtensions` | schema.go:245-272 | Refused exactly when a trimmed name is empty or has a character other than ASCII letters, digits, underscore and dash; otherwise each name once, the defaults first and then in the order of first declaration. |
| `Extensions.LastDecides` | schema.go:245-272 | The last declaration of a name decides whether it is required. |
| `JsonEscapes.ScansWellPaired` | libs/go/workloadattachment/attachment.go:161-191 | The scanner accepts exactly the byte strings whose escapes have four hex digits and whose surrogates are paired. |
| `JsonEscapes.SurrogatesCover` | libs/go/workloadattachment/attachment.go:161-191 | Pairs of surrogates, as the scanner tells high from low, spell exactly the characters beyond 16 bits, each in one way. |
| `JsonEscapes.ValidUnicodeEscapes` | libs/go/workloadattachment/attachment.go:161-191 | The loop that moves its index by hand never leaves the input and decides the same. |
| `SealRewriter.WriteSeparators` | libs/go/workloadattachment/attachment.go:274-294 | The rewriting loop computes the rewriting function. |
| `SealRewriter.RewriteKeepsText` | libs/go/workloadattachment/attachment.go:274-294 | For every byte sequence the output decodes to the same text and holds no separator escape. |
| `SealRewriter.RewriteUntouched` | libs/go/workloadattachment/attachment.go:274-294 | An input without separator escapes, an escaped backslash before u2028 included, is left as it is. |
| `SealRewriter.RewriteTwice` | libs/go/workloadattachment/attachment.go:274-294 | A second pass changes nothing. |
| `Forwarder.CountsAndKeepsConnections` | forward.go:43-102 | In every interleaving the wait count is the number of live routines and every open connection is tracked or held by the routine that just created it. |
| `Forwarder.AddIsNeverFromZero` | forward.go:43-57 | The wait group is never raised from zero, so raising it never races with waiting. |
| `Forwarder.ClosedMeansGone` | forward.go:104-117 | When any Close has returned, nothing is open, nothing is tracked and no routine runs. |
| `Forwarder.SessionsEndOnBothSides` | forward.go:59-83 | In every run, from the moment a session is ended until its pipe is gone, neither of its connections is open. |
| `Forwarder.EndsOnlyAfterACopy` | forward.go:59-83 | In every run a session can be ended exactly once one of its two copies has, and its pipe moves on exactly once both have. |
| `Forwarder.RankFalls` | forward.go:59-83 | After Close every step of a routine brings the end nearer. |
| `Forwarder.NeverStuck` | forward.go:104-117 | After Close some routine can always move without outside help until none is left, and then Close returns. |
| `LogLines.LinesJoin` | pglog.go:82-94 | Splitting loses nothing: the lines with their newlines and the rest are the stream. |
| `LogLines.LinesAppend` | pglog.go:82-94 | What arrives later only completes the unterminated rest. |
| `LogLines.PgLogWriter.Write` | pglog.go:82-94 | Each write leaves the emitted lines and the buffer those of the whole stream so far. |
| `LogLines.WriteAll` | pglog.go:82-94 | However the stream is cut into writes, the emitted lines are its lines, trimmed, and the buffer its unterminated end. |
| `Mounts.CheckMounts` | libs/go/workloadattachment/attachment.go:330-346 | Accepts exactly lists of known volumes with valid paths, none of which is, contains or lies in another. |
| `Mounts.OverlapExactly` | libs/go/workloadattachment/attachment.go:330-346 | Two mount points overlap exactly when some path lies under both. |
| `Mounts.NoPathUnderTwoMounts` | libs/go/workloadattachment/attachment.go:330-346 | Of accepted mounts, no path is reached through two. |

## Left out

- RunServerSafety.SinglePostmaster: assumes that a failed inspection during a stop's wait is not read as the end of a live postmaster, and that no abandoned `pg_ctl` lands while a lock file is about to go; `RunServerExact.CarefulExactly` shows that both are needed and that nothing else is.
- RunServerSignals.SignalsReachTheOwnPostmaster: assumes that a reported PID is not reused before its birth is recorded; `RunServerSignalsExact.TimelyExactly` is the converse.
- RunServerSignals.ServedIsNeverSignalled: assumes one agent per service name and that a served agent's holder file can be read; `RunServerSignalsExact.AttendedIsNeeded` is the converse.
- RunServerSignalsExact.AttendedIsNeeded: assumes that no agent, and no process that launched one, is called postgres or postmaster, since the lock file naming such a process would keep any server from being started again.
- RunRoot.ServerRoot.StopServer: takes a recorded socket directory to be one this program made, which its name says.
- RunServerLiveness.AbandonedServerIsCollected: says that the collection can go through when every file is read and every inspection answers, not that the environment lets it; so do `ServiceComesUp` and the completions of `ControlPlaneLiveness`.
- ControlPlaneSafety.MigrationsAndGrantsNeverOverlap: assumes that bootstraps let go of the lock in order, which `ControlPlaneExact.TightExactly` shows to be needed, and that a reaped child opens no further session.
- SchemaPackage.PublishedPlanAcceptedExactly: takes the decoding of plan.json and the comparison of its file hash as done, and the role binding as accepted; `ManagedBinding.ValidateBinding` is that check.
- ProvisionRuns.OneServicePerDatabase: assumes that each database's owner role is named after it, that an owner leaves the claim on its own database alone, and that databases are not dropped.
- PostgreSQL removing `postmaster.pid` on an orderly exit is one step with that exit; what `initdb`, `pg_ctl` and Nix do is modelled by the postmaster they leave.
- The file lock is exclusive; its polling, and every budget and retry interval, is a choice the environment makes.
- `validateReaderRoles` is a parameter that answers for any catalog; its queries are not modelled, nor are SQL text and quoting.
- The migration owner is the only grantor, and a failed transaction is rolled back by its caller as the code requires.
- The text of `ipcs` is already parsed into rows; the kernel's distinct ids and nonzero keys are a precondition of the planner.
- SHA-256 and HMAC are functions about which nothing is assumed, except for the absence of collisions where a lemma says so; the derivation of passwords is not modelled.
- CREATE EXTENSION takes no lock in the agent, so nothing is claimed about it there.
- Transient input and output errors beyond the ones that a result names.
- Preflight checks of the managed bootstrap, connection URLs, TLS, Kubernetes rendering, settings and gRPC plumbing.
- The effects of a migration's SQL, and `migrate`'s own lock, which lies in another key space.
