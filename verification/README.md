# Daffa: a verified model of its reconcilers and protocols

Daffa manages Docker hosts from a console. Five of its parts carry state across several
functions and promise something about whole runs. This project models them in Dafny and
proves those promises.

- **Manifest plan and apply** (`Manifest*.dfy`, `SlotMerge.dfy`, `Comparisons.dfy`). A declared
  document is walked in dependency order; each resource is compared with the store, given a
  verdict, and in apply brought in line. `ManifestSpec` says, as functions of the store, what
  one resource's step does in plan and in apply; `ManifestRun` is the server's own object,
  whose methods update rows, report and caches in place and are proved to do just that.
  `ManifestDeclared` says, of the stored rows alone and column by column, what a declaration asks
  for. Proved: an apply converges to that and only ensures; its verdicts, exactly; when applying
  twice is applying once, and when a plan foretells its apply, both exactly; that the capability
  check made beforehand covers every row written and asks for nothing else; and when two
  declarations are one row. Nine kinds are modelled: SSH key, git
  credential, CA, certificate, certificate delivery, generated secret, webhook, stack (with
  variables and secret files), volume source.
- **Delivery into volumes** (`Delivery*.dfy`, `SharedVolume.dfy`, `TwoDeliveries.dfy`, `VolumeManifest.dfy`,
  `Framing.dfy`, `HashGate.dfy`, `FleetGroups.dfy`, `Sorting.dfy`). Content first, stale files
  second, the manifest last; any step may fail and a write may leave part of a file. Proved: no
  orphaned key files, no harm to a volume source beside a delivery, what two certificate
  deliveries on one volume come to, a manifest format and a hash framing that read back, and
  exactly when the content hash gates the sync without changing what volumes hold.
- **CA rotation** (`Rotation*.dfy`). Stage a successor, re-sign every leaf, promote. Proved:
  every leaf's signer stays among the trusted roots, what activation does to a bundle, and that
  a retired root leaves every bundle when its overlap ends.
- **Deployments** (`Pipeline*.dfy`, `HookedRun.dfy`, `StackRuns.dfy`, `LiveHash.dfy`, `DeployServer.dfy`).
  Claim, hooks, engine, verdict, notification, live hash, at most one rollback, each a step of its
  own, with cancellation, crashes, reattachment and other deployments of the stack between any two.
- **Keyrings** (`Keyring.dfy`) and the **login limiter** (`Limiter.dfy`).

Sealing is modelled by what unsealing gives back, random material by a supply indexed by fresh
ids, library calls that can refuse a declaration by fixed verdicts of the `World`, and the hash by
a function assumed not to collide.

## What turned out not to hold

The model follows the code; where the code does not keep a promise, a lemma gives an input and
the promise is proved under the condition that decides it.

- *Applying twice.* A stack that names a webhook nobody declares is blocked; a later `auto_deploy`
  stack of that name makes a webhook of its own with it, and the second apply creates the first
  stack (`ManifestLimits.SecondApplyCreates`). `ManifestFixpoint.ApplyTwice` says when: exactly if
  some resource, visited while its webhook was nowhere, finds at the end that a later target took
  that name and that nothing else is in its way; or if an authority was made as below.
- *Planning.* The file's header says plan and apply cannot disagree. They do exactly where apply is
  surprised (`ManifestAgreement.Surprised`, `ManifestAgreement.PlanThenApply`), in four ways: a row
  found in sync refers to what the document creates first; a target takes the webhook name a
  resource was refused for (`ManifestLimits.PlanBlocksApplyCreates`); a certificate the document
  makes covers a shared one a delivery carries (`ManifestLimits.CoverSurprises`); and the document
  frees the file a volume source was refused for (`ManifestLimits.LiftSurprises`).
- *Identity.* Validation tells two declarations apart by the cluster as written, not by the
  cluster they land on (`internal/manifest/validate.go:84-91`, `internal/manifest/validate.go:288`);
  two spellings of the default cluster converge one row (`ManifestLimits.TwiceDeclared`).
  `ManifestIdentity.IdentifiedExactly` says when that happens, and
  `ManifestIdentity.DefaultSpeltOut` that, where every cluster has one name, a blank cluster beside
  the document's own spelt out is the only way.
- *Authorities.* A CA whose subject line does not spell its common name out, for instance because
  the name needs escaping, is created and from then on reported as drifted
  (`ManifestLimits.CommaDrifts`); that is the only way a CA just made does not rest in sync
  (`ManifestLimits.AuthorityExactly`).
- *Orphans.* A key written by a sync that failed before its commit and dropped before the next one
  is never removed (`DeliverySafety.StrandedKey`); `DeliverySafety.OrphansExactly` says when.
- *Two deliveries on one volume.* Several certificate deliveries may share a volume
  (`internal/api/cert_delivery.go:333-336`, `internal/api/manifest.go:1203-1206`), but all keep their manifest
  under one name (`internal/volumes/manifest.go:22`, `internal/api/cert_delivery.go:565`,
  `internal/api/cert_delivery.go:579`). So the later one removes the earlier one's keys and certificates as
  its own leftovers, also where no name is common, and the gate (`internal/api/cert_delivery.go:541`) never
  writes them again: `TwoDeliveries.KeyGone`. `TwoDeliveries.FirstStandsExactly` says what stands: every
  file of the first if and only if the second wants each with the same content, and no name the
  second does not want. Over any run, once both are recorded ok one of them prevails in that way
  (`TwoDeliveries.OnePrevails`, `TwoDeliveries.TrueRecords`), and nobody notices
  (`TwoDeliveries.NobodyNotices`).
- *The gate.* A skipped sweep is what writing everything would be if and only if every node still
  holds what is recorded (`HashGate.SkipIdleExactly`, over runs `HashGate.GateExactly`): not after somebody
  else changed a file of the delivery's, and not on a node that joined since.
- *Issuing.* The create handler and the manifest ask only whether a CA can sign, so a leaf can be
  issued from a retired one and outlive its trust; `RotationSafety.IssuingExactly` shows that this is
  the only step that breaks the invariant.
- *Bundles.* Lineage is followed one hop, so activating the successor of a root that itself replaced
  one still in overlap drops that one (`RotationSafety.ActivationPreserves`, both directions).
- *Reattachment.* The sweep after a restart skips a deployment whose stack or environment cannot be
  reached then (`internal/api/deploy.go:662-671`), which is every one on a cluster that connects
  later. It goes on running with nobody in charge, exactly those do
  (`DeployServer.Server.ReapOrphanedRuns`, `DeployServer.Server.Start`), and until a later restart
  reaches it no deployment of its stack is claimed (`DeployServer.SkippedHoldsClaim`).
- *Hooks taken up.* Sweeping hook runners ignores errors (`internal/stacks/runner.go:180-190`). A
  reattachment breaks the deployment's invariant exactly when the sweep did not go through and the
  row names a hook's container that is still there (`PipelineSafety.ReattachExactly`); a hook that
  then exits 0 is taken for the deployment (`PipelineSafety.HookAdopted`,
  `PipelineSafety.UnsweptAdoptsHook`). That makes an OK one that does not mean what it says exactly for
  a pre hook, nobody having cancelled (`PipelineVerdict.VerdictExactly`).
- *What is live.* The verdict releases the claim, and the live hash is a write of its own later
  (`internal/api/deploy.go:259-280`). It is not that of the last deployment recorded OK while that
  one is still being finished, when the server died in between (`LiveHash.CutOff`, for good: `LiveHash.CutForGood`), when a slower one
  marks after it (`LiveHash.SlowMarkWins`), and after an adoption (`LiveHash.AdoptionWins`); in no
  other case, unless the hashes are the same anyway (`LiveHash.LiveIsLastOK`).
- *Cancellation.* The verdict is cancelled whatever the exit code, also 0; and a deployment that is
  cancelled and then fails while being prepared is recorded cancelled and still notifies, because
  `failDeployment` does not go through the funnel (`PipelineSafety.CancelHolds`).
- *Keyring schedule.* The rotation period is multiplied out in 64-bit nanoseconds: from 106752 days
  on it wraps (`Keyring.ScheduleExactly`), and a keyring may then be due at every sweep
  (`Keyring.ScheduleRunsAway`).

## Model

| member | source | states |
|---|---|---|
| SlotMerge.MergeSlots | internal/api/manifest.go:1648-1735 | the merge loop, with its index of stored keys, computes the declared merge of slots into rows |
| SlotMerge.MergeLookup | internal/api/manifest.go:1660-1726 | in the merged list stored rows keep position and key, undeclared ones their content, and each declared slot holds its known value, an empty placeholder when new and unfilled, or what a human put there |
| SlotMerge.ChangedIsHonest | internal/api/manifest.go:1665-1735 | a merge reports a change if and only if a row differs or material is still awaited |
| SlotMerge.MergeIsIdempotent | internal/api/manifest.go:1645-1735 | merging the same intents again changes nothing and reports nothing |
| ManifestFrame.StepTouches | internal/api/manifest.go:583-2040 | one resource's step, in either mode, writes at most its own row, and a target besides adds a webhook under one of its own names |
| ManifestFrame.LaterStepsAgree | internal/manifest/order.go:23-42 | a later resource's step leaves alone everything an earlier verdict was read from, as long as the webhook the earlier one depends on was there or has not come |
| ManifestFixpoint.Settles | internal/api/manifest.go:583-2040 | any resource applied without error and applied again at once writes nothing and is in sync, blocked or drifted as it was, or drifted if it is an authority just made whose subject does not spell its name out |
| ManifestFixpoint.StackSettles | internal/api/manifest.go:1471-1627 | a stack applied and applied again: source, push settings, variables and secret files all rest |
| ManifestFixpoint.VolSettles | internal/api/manifest.go:1885-2040 | the same for a volume source, with its own webhook made on the way |
| ManifestFixpoint.DeliverySettles | internal/api/manifest.go:1143-1284 | the same for a certificate delivery compared as multisets |
| ManifestFixpoint.Stays | internal/api/manifest.go:583-2040 | a settled resource stays settled while its own row, the kinds visited before it and the webhook it names do not change |
| ManifestFixpoint.WakesExactly | internal/api/manifest.go:1426-1448 | a resource visited while its webhook was nowhere was blocked, and is blocked against any later store if and only if it does not find everything it asks for there |
| ManifestFixpoint.ApplySettles | internal/api/manifest.go:483-568 | after an apply that ran without error a resource is settled in the final store if and only if it was not woken: it then had been blocked and would not be again |
| ManifestFixpoint.ApplyTwice | internal/api/manifest.go:483-568 | a second apply writes no row, stops nowhere, and finds in sync whatever the first created, updated or found in sync, if and only if no resource was woken and no authority was made without its name spelt out |
| ManifestConverges.InSyncExactly | internal/api/manifest.go:583-2040 | a resource rests in sync if and only if the store holds what its declaration asks for, column by column: address, reference, path, compose text, credential and webhook links, values, files and settings |
| ManifestConverges.SatisfiedExactly | internal/api/manifest.go:1660-1735 | a merge finds nothing to do if and only if every declared slot is satisfied |
| ManifestReads.SourceExactly | internal/api/manifest.go:1630-1643 | the source columns an apply compares and writes are those declared: a git address, reference and path trimmed, each in its own column, with the credential of that name; or the compose text and empty git columns |
| ManifestReads.VolSourceExactly | internal/api/manifest.go:2042-2057 | the same for a volume source |
| ManifestReads.SpellsExactly | internal/api/manifest.go:1098-1112 | a composed value is its pieces in order, each a text or what a generated secret holds, and has none while one of these is missing |
| ManifestReads.VarExactly | internal/api/manifest.go:1660-1726 | a stored variable satisfies its declaration if and only if it holds the plain, generated, composed or submitted value, or is there to be filled |
| ManifestReads.FileExactly | internal/api/manifest.go:1742-1820 | the same for a secret file |
| ManifestReads.CarriesExactly | internal/api/manifest.go:1152-1174 | the certificates a delivery resolves to are the environment's own of each name, or else the shared ones, in the order declared |
| ManifestReads.FreeExactly | internal/api/cert_delivery.go:362-386 | an inline file is refused if and only if it is the fragment, bundle, manifest or a certificate's file of the first delivery there with a fragment, or a fleet delivery's |
| ManifestVerdicts.VerdictExactly | internal/api/manifest.go:583-2040 | an apply step that does not fail is blocked, drifted or a creation exactly as a table over the stored rows says, and in sync exactly when they already hold what is asked for |
| ManifestVerdicts.CreatedHolds | internal/api/manifest.go:583-2040 | a row just created holds what the declaration leaves open: default algorithms and windows, the submitted or random secret, the issuing authority, a fresh id |
| ManifestVerdicts.HookMade | internal/api/manifest.go:1450-1469 | a target's own webhook takes the first free of its names, on its environment, with random material, and the walk stops if and only if the last of them is taken |
| ManifestVerdicts.DeliveryFails | internal/api/manifest.go:1152-1284 | the walk stops at a delivery if and only if it would write one that carries a certificate twice |
| ManifestVerdicts.StackStops | internal/api/manifest.go:1546-1570 | where the walk stops at a stack for want of a webhook name, its source is already written and nothing else is |
| ManifestConverges.ApplyConverges | internal/api/manifest.go:483-568 | after an apply without error everything it reported created, updated or in sync is stored as declared, column by column, but for exactly the authorities made without their name spelt out |
| ManifestConverges.EnsureOnly | internal/api/manifest.go:6-11 | an apply, even one cut short, removes no row and changes none beyond its safe fields: keys, credentials, certificates, generated secrets and webhooks are never replaced, a CA changes its outbound trust alone, deliveries, stacks and volume sources keep their ids, and a stack its engine and every slot |
| ManifestAgreement.PlanReads | internal/api/manifest.go:251-330 | a plan writes nothing, never fails, and judges each resource against the store as found |
| ManifestAgreement.StepGrows | internal/api/manifest.go:583-2040 | an apply step removes no row and keeps every row's id; new rows are fresh and are the document's own or a target's webhook |
| ManifestAgreement.ResolveGrows | internal/api/manifest.go:1152-1174 | resolving a delivery's certificate names in apply finds what the plan found, or something fresh the plan called pending or a shared name covered since |
| ManifestAgreement.ChangedAlike | internal/api/manifest.go:1680-1735 | a merge reports a change before generated material exists exactly when it does so after, the material being fresh |
| ManifestAgreement.HookAgrees | internal/api/manifest.go:1450-1469 | whether a target's webhook link has to move is the same in plan and in apply |
| ManifestAgreement.StackAgrees | internal/api/manifest.go:1471-1627 | a stack's apply verdict is its plan verdict or blocked, if and only if it is not one found in sync whose credential has only now been made, nor one refused for a webhook name taken since, with everything else it asks for there |
| ManifestAgreement.VolAgrees | internal/api/manifest.go:1885-2040 | the same for a volume source, whose stack may also have only now been made and whose refused file names may have been freed |
| ManifestAgreement.DeliveryAgrees | internal/api/manifest.go:1143-1284 | a delivery's apply verdict is its plan verdict or blocked, if and only if it was not found in sync with a shared certificate that has been covered since |
| ManifestAgreement.CertAgrees | internal/api/manifest.go:870-982 | a certificate's apply verdict is its plan verdict or blocked, if and only if it was not found in sync or to be updated with a CA that has only now been made |
| ManifestAgreement.PlanThenApply | internal/api/manifest.go:6-18 | over a whole document: the plan changes nothing and finishes, and a resource apply reaches gets its planned verdict or is blocked if and only if it meets no surprise there |
| ManifestAgreement.ForeseenComesTrue | internal/api/manifest.go:171-205 | and none can come where, judged before anything is applied, no row in sync refers ahead and nothing is refused that the document itself may free |
| ManifestLimits.CoverSurprises | internal/api/manifest.go:1152-1174 | a document whose plan finds a delivery in sync that its apply updates, the shared certificate it carries being covered |
| ManifestLimits.SecondApplyCreates | internal/api/manifest.go:1450-1469 | a document whose second apply creates a stack the first one blocked |
| ManifestLimits.PlanBlocksApplyCreates | internal/api/manifest.go:1426-1448 | a document whose plan blocks what its apply creates |
| ManifestLimits.TwiceDeclared | internal/manifest/validate.go:84-91 | two declarations that validation tells apart and apply converges into one row |
| ManifestLimits.LiftSurprises | internal/api/manifest.go:1957-1974 | a document whose plan blocks a volume source for the delivery's fragment and whose apply, having turned the fragment off, creates it |
| ManifestLimits.AuthorityExactly | internal/api/manifest.go:804-868 | an authority just made rests in sync if and only if its subject line spells its common name out, and is drifted for good otherwise |
| ManifestLimits.CommaDrifts | internal/api/manifest.go:815 | an authority whose name the library escapes is created and then drifted at every apply |
| ManifestIdentity.IdentifiedExactly | internal/manifest/validate.go:84-91 | a document that passes validation converges each row once if and only if no two declarations of one kind and name spell one environment in two ways |
| ManifestIdentity.DefaultSpeltOut | internal/manifest/validate.go:84-91 | where cluster names tell environments apart, if and only if none is declared both without a cluster and on the document's own by name |
| ManifestPreflight.Preflight | internal/api/manifest.go:348-435 | a document is allowed if and only if the user may apply every resource, by the capability of its kind where it lives and the webhook's where it may have to make one; and refused for the first resource that is not, with the capability lacking |
| ManifestPreflight.DeniedExactly | internal/api/manifest.go:111-141 | the same of any list of resources, over a table of the capability each kind asks for |
| ManifestPreflight.MissingLooksForbidden | internal/api/manifest.go:340-347 | to a user who holds nothing on a cluster the answer is the same whether or not the cluster exists |
| ManifestPreflight.HookPlaced | internal/api/manifest.go:1450-1469 | a webhook a target makes for itself lands on the target's environment |
| ManifestPreflight.PreflightCovers | internal/api/manifest.go:111-141 | once preflight passes, every row an apply leaves different, even one cut short, is one the user may edit where it lives |
| ManifestRun.Run.DeclaresIt | internal/api/manifest.go:171-199 | the index built on first use answers whether the document declares a kind and name |
| ManifestRun.Run.ResolveCluster | internal/api/manifest.go:444-458 | the memoised lookup gives the cluster's environment, or a miss |
| ManifestRun.Run.GeneratedValue | internal/api/manifest.go:1078-1096 | the cached plaintext is always the stored one |
| ManifestRun.Run.ExpandGenerated | internal/api/manifest.go:1098-1112 | a composed value expands to its pieces, or to nothing while one is missing |
| ManifestRun.Run.EnsureSSHKey | internal/api/manifest.go:583-628 | rows and report after an SSH key's step are the specification's |
| ManifestRun.Run.EnsureGitCred | internal/api/manifest.go:676-742 | the same for a git credential |
| ManifestRun.Run.EnsureCA | internal/api/manifest.go:804-868 | the same for an authority |
| ManifestRun.Run.EnsureCert | internal/api/manifest.go:870-982 | the same for a certificate |
| ManifestRun.Run.EnsureGenerated | internal/api/manifest.go:1026-1073 | the same for a generated secret, its value cached |
| ManifestRun.Run.EnsureDelivery | internal/api/manifest.go:1143-1284 | the same for a certificate delivery |
| ManifestRun.Run.EnsureWebhook | internal/api/manifest.go:1347-1396 | the same for a webhook |
| ManifestRun.Run.LinkTarget | internal/api/manifest.go:1450-1469 | the webhook a target ends up linked to, one of its own made when it needs it |
| ManifestRun.Run.PickFreeName | internal/api/webhook_handlers.go:876-887 | the first free of a target's name, its name with the cluster, and a random suffix |
| ManifestRun.Run.ConvergeRow | internal/api/manifest.go:1546-1626 | writing source, push settings, variables and secret files one after the other comes to the specification's single change |
| ManifestRun.Run.EnsureStack | internal/api/manifest.go:1471-1627 | the same for a stack |
| ManifestRun.Run.EnsureVol | internal/api/manifest.go:1885-2040 | the same for a volume source |
| ManifestRun.Run.WalkAll | internal/api/manifest.go:483-568 | the walk visits every resource in order, stops at the first error, and leaves the specification's rows and report |
| Comparisons.SortedAlike | internal/api/manifest.go:2083-2096 | sorting and comparing says yes if and only if the lists are equal as multisets |
| Comparisons.CertSetEqual | internal/api/manifest.go:2061-2081 | the same for delivered certificates, through a key that confuses no two of them |
| Comparisons.TextsDecide | internal/api/manifest.go:2065 | comparing the texts of entries compares the entries, if no two of them have the same text |
| Comparisons.VolFilesEqual | internal/api/manifest.go:2098-2112 | equal lengths and one direction are equality of the two volumes when paths are distinct, as validation and the store make them |
| VolumeManifest.ParseManifest | internal/volumes/manifest.go:50-60 | the loop over lines keeps the trimmed ones that are neither blank nor comments |
| VolumeManifest.RoundTrip | internal/volumes/manifest.go:35-60 | a manifest reads back as the names it was built from if and only if each can stand on a line of its own |
| Framing.Feed | internal/api/cert_delivery.go:667-682 | collecting, sorting and feeding the files yields the framed stream in name order |
| Framing.StreamReads | internal/api/cert_delivery.go:670-681 | the stream of framed records and owner decodes to the file map, uid and gid, for any contents |
| Framing.StreamInjective | internal/api/fleet_delivery.go:614-629 | two desired states have the same stream if and only if they are the same |
| Delivery.Node.Sync | internal/api/cert_delivery.go:563-606 | one node's sync executes its writes, removals and commit in that order, up to the operation that fails |
| DeliverySafety.SuccessAt | internal/api/cert_delivery.go:570-606 | a sync that succeeds leaves each wanted file, the new manifest, nothing only the old manifest names, and everything else as it was |
| DeliverySafety.TouchesOwn | internal/api/cert_delivery.go:563-606 | an attempt, however it ends, changes only its own manifest, the wanted files and those its last manifest names |
| DeliverySafety.ContentFirst | internal/api/cert_delivery.go:592-600 | however an attempt ends, nothing but wanted files has changed before every wanted file is there complete |
| DeliverySafety.ManifestLast | internal/api/cert_delivery.go:600-610 | and while a stale file is still there the manifest is the one found |
| DeliverySafety.InterleavingsCommute | internal/api/cert_delivery.go:362-386 | two lists of steps on disjoint paths leave the same volume under any interleaving |
| SharedVolume.SyncsCommute | internal/volumes/manifest.go:16-22 | a delivery and a volume source beside it, concerned with different paths and manifests, each reading its own when its turn comes and going as far as its faults let it, leave under any interleaving what running one after the other leaves, in either order |
| TwoDeliveries.FirstStandsExactly | internal/api/cert_delivery.go:563-606 | after two certificate deliveries on one volume have succeeded in turn, all of the first one's files stand if and only if the second wants each with the same content, and no name the second does not want is left |
| TwoDeliveries.HasExactly | internal/api/cert_delivery.go:565-579 | what the displaced one has on record is true of the volume if and only if the two want the same |
| TwoDeliveries.TrueRecords | internal/api/cert_delivery.go:520-606 | over any run of sweeps of both, whatever they come to want and however they fail: once both are recorded ok one record at least is true of every node, and both are if and only if they record the same |
| TwoDeliveries.SweepKeeps | internal/api/cert_delivery.go:520-606 | while each wants the same, every sweep keeps account of whose files are left, and the one that comes to be recorded ok last wins |
| TwoDeliveries.OnePrevails | internal/api/cert_delivery.go:520-606 | over any run of such sweeps, failures and recoveries, once both are recorded ok one has delivered on every node, and there the other's record is true if and only if they want the same, its files stand if and only if they are covered, and the rest is gone |
| TwoDeliveries.NobodyNotices | internal/api/cert_delivery.go:541-543 | from then on no sweep that wants what is recorded changes anything |
| TwoDeliveries.SkipIdleIfSame | internal/api/cert_delivery.go:541-543 | there the displaced one's skipped sweep is what writing would be if and only if the two want the same |
| TwoDeliveries.KeyGone | internal/api/cert_delivery.go:333-336 | two plain deliveries of one certificate each, of different names: the first key is gone, both are recorded ok, and the first one's next sweep changes nothing |
| DeliverySafety.SuccessIsExact | internal/api/fleet_delivery.go:501-538 | from an accounted state a successful sync leaves exactly the wanted files, the manifest, and what the delivery never wrote |
| DeliverySafety.NoOrphans | internal/api/cert_delivery.go:570-610 | the same after any run of syncs failing at any step and of other writers, while wanted names only grow between commits and nobody else writes what this delivery wrote or a manifest of its name, as a second certificate delivery on the volume would |
| DeliverySafety.OrphansExactly | internal/api/cert_delivery.go:592-606 | without that promise: no orphan is left if and only if every file written since the last commit and not in the old manifest is still wanted |
| DeliverySafety.StrandedKey | internal/api/cert_delivery.go:592-606 | a key dropped after a sync that failed before its commit survives the next success, in no manifest |
| HashGate.DeliveryRow.Report | internal/api/cert_delivery.go:520-615 | one sweep: skipped when the recorded hash is this one and ok, else every node attempted and the outcome recorded with the hash |
| HashGate.RecordsExactly | internal/api/cert_delivery.go:520-615 | a sweep not skipped records its hash, and ok if and only if every node was reached and written to the end; each of those then holds what is wanted |
| HashGate.SkipIdleExactly | internal/api/cert_delivery.go:541-543 | where the gate skips, writing everything anyway would change no volume and no record if and only if every node still holds what is recorded |
| HashGate.GateExactly | internal/api/cert_delivery.go:520-543 | over any run of sweeps, failures, recoveries, files changed by others and nodes coming and going, the gated and the always-writing sweep agree throughout if and only if the gate never skips over a node that holds something else |
| HashGate.GateRefines | internal/api/cert_delivery.go:520-543 | in particular they leave the same volumes and records from an honest record on, when no other writer touches the delivery's manifest or wanted files and no node joins |
| FleetGroups.Resolve | internal/api/fleet_delivery.go:159-216 | a request is accepted if and only if its groups are each acceptable and do not conflict, and then as asked for; and otherwise the code returned is true of one of its groups |
| FleetGroups.AcceptedExactly | internal/api/fleet_delivery.go:159-216 | said of the request: every directory legal, every root of each group's own bundle known and not staged, every certificate known and of its own name in the group, no directory and no certificate in two groups |
| FleetGroups.AcceptedAsAsked | internal/api/fleet_delivery.go:178-216 | an accepted group has its own directory and bundle, and its certificates once each in the order first named |
| FleetGroups.PathsDistinct | internal/api/fleet_delivery.go:551-611 | accepted groups write each path once, unless a carried certificate is called ca-bundle |
| FleetGroups.BundleClash | internal/api/fleet_delivery.go:585-609 | a certificate called ca-bundle and its group's bundle want the same path |
| FleetGroups.WritesOwned | internal/api/fleet_delivery.go:634-659 | every path an accepted delivery writes, and its manifest, is in its owned names |
| FleetGroups.OwnedIsWritten | internal/api/fleet_delivery.go:634-659 | and every name it owns is its manifest or a path it writes |
| Rotation.Authority.RotateCA | internal/api/cert_handlers.go:279-388 | staging is refused unless the authority is active and has no staged successor, and otherwise adds one |
| Rotation.Authority.ResignLeaves | internal/api/cert_handlers.go:485-516 | leaves move one by one onto the successor up to the first that cannot |
| Rotation.Authority.ActivateCA | internal/api/cert_handlers.go:399-480 | promotion, retirement and substitution in selections happen only after every leaf moved |
| Rotation.Authority.TrustBundle | internal/api/cert_handlers.go:525-570 | the bundle loop carries the selected roots and their lineage, retired ones while in overlap, which RotationSafety.BundleExactly says of the stored authorities |
| RotationSafety.StepSound | internal/api/cert_handlers.go:187-226 | every handler keeps the rotation invariant, except issuing from a retired authority, which breaks it |
| RotationSafety.IssuingExactly | internal/api/cert_handlers.go:705-721 | issuing keeps the invariant if and only if it is not from a retired authority that can sign |
| RotationSafety.LeafStepSound | internal/api/cert_worker.go:140-175 | renewing a leaf, uploading or removing one, and selecting bundles keep the invariant |
| RotationSafety.TrustContinuity | internal/api/cert_handlers.go:425-516 | in every reachable state, a re-signing stopped at any leaf included, each issued leaf's signer is in the full bundle at any time |
| RotationSafety.ActivationCompletes | internal/api/cert_handlers.go:425-472 | an activation that reaches every leaf moves each of the incumbent's to the successor, promotes it, and retires the incumbent until the announced deadline |
| RotationSafety.OneSuccessor | internal/api/cert_handlers.go:300-315 | an authority has at most one staged successor, and a staged one's incumbent is active or gone |
| RotationSafety.ActivationPreserves | internal/api/cert_handlers.go:525-570 | before the overlap deadline activation leaves a bundle's roots unchanged if and only if the selection does not reach, through the incumbent alone, a predecessor still carried |
| RotationSafety.HandlerPreserves | internal/api/cert_handlers.go:443-472 | the same for each delivery's own selection, rewritten by the handler |
| RotationSafety.BundleExactly | internal/api/cert_handlers.go:525-570 | a root is in a bundle if and only if it is not retired or still in its overlap, and is selected itself, staged for a selected one, replaced by one, or all are |
| RotationSafety.BundleOrdered | internal/api/cert_handlers.go:555-569 | roots come in listing order, each as often as it is listed |
| RotationSafety.RetiredLeaves | internal/api/cert_handlers.go:563-566 | a retired root is in no bundle from the end of its overlap on |
| RotationSafety.IncumbentLeaves | internal/api/cert_handlers.go:443-472 | after a completed activation the incumbent is in the full bundle up to its successor's announced deadline, and in no bundle from then on |
| RotationSafety.RotatesThrough | internal/api/cert_handlers.go:279-480 | staged and activated: every leaf is the successor's, and the incumbent is trusted up to the overlap it was given and no longer |
| RotationSafety.StagingExactly | internal/api/cert_handlers.go:279-388 | a successor is added if and only if the incumbent is active and has none staged, and nothing else changes |
| RotationSafety.ActivationStops | internal/api/cert_handlers.go:399-516 | unconfirmed or not of a staged authority it does nothing; stopped at a leaf it has moved as many as it could; with the incumbent gone it only promotes |
| RotationSafety.DeletionExactly | internal/api/cert_handlers.go:187-226 | an authority goes if and only if no leaf is its and no delivery selects it |
| RotationSafety.IssueExactly | internal/api/cert_handlers.go:705-721 | a leaf is issued if and only if its authority is there and can sign, and is signed by it |
| RotationSafety.AddingExactly | internal/api/cert_handlers.go:95-180 | a new authority is active and in the full bundle at once, and nothing else changes |
| Pipeline.Step | internal/api/deploy_hooks.go:26-141 | no step changes what kind of deployment it is or takes a cancellation back; only its beginning says what it ships, only marking makes that live, and only a repair counts as one |
| PipelineSafety.StepInv | internal/api/deploy.go:27-156 | every step of pipeline, engine, watcher, funnel, crash and reattachment keeps the deployment invariant, except exactly a reattachment that takes up a hook's runner |
| PipelineSafety.ReattachExactly | internal/stacks/runner.go:180-190 | a reattachment keeps the invariant if and only if it is not one that reaches a deployment whose sweep failed and whose row names a hook's container still there |
| PipelineSafety.RunExactly | internal/api/deploy.go:656-696 | the invariant holds all along a run if and only if no reattachment of it takes up a hook's runner |
| PipelineSafety.OKMeansPassed | internal/api/deploy_hooks.go:70-141 | over any crashes and restarts that take up no hook's runner a verdict of OK means every blocking pre hook passed and the main runner exited 0, and without a crash every blocking post hook too |
| PipelineVerdict.VerdictExactly | internal/api/deploy.go:656-696 | over every run whatever, a verdict of OK is what it promises, main exited 0 after every blocking pre hook passed, if and only if it was not recorded from a pre hook's uncancelled exit 0; and that takes a reattachment that took up a hook's runner |
| PipelineVerdict.StepJudges | internal/api/deploy.go:656-696 | step by step: the one step that closes a deployment OK against that promise is a watcher's reading of such an exit |
| PipelineSafety.ClosedOnce | internal/api/deploy.go:899-922 | a claim is closed exactly once, and while open somebody is in charge unless the server crashed |
| PipelineSafety.MarkedUnlessCut | internal/api/deploy.go:259-280 | an OK up or pull that nobody is finishing any more moved the live hash if and only if the server did not die between its verdict and that write |
| PipelineSafety.ReattachRecovers | internal/api/deploy.go:662-671 | after a crash a restart leaves an unfinished deployment with nobody in charge if and only if its stack or environment cannot be reached |
| PipelineSafety.StrandedStays | internal/api/deploy.go:662-671 | and so it stays, unfinished and undecided, whatever its containers, a cancellation or further restarts do, until one reaches it |
| PipelineSafety.RepairedOnce | internal/api/deploy_hooks.go:129-138 | at most one rollback, only after a failed verification that asked for it, none from a deployment that restores |
| PipelineSafety.CancelHolds | internal/api/deployment_handlers.go:296-326 | once cancellation is requested the only verdict left is cancelled, with no rollback and no notification unless it failed while being prepared |
| PipelineSafety.HookAdopted | internal/stacks/runner.go:180-190 | whenever a reattachment takes up the runner of a hook still running and nobody cancels, that hook's exit 0 is recorded as the deployment's, whatever became of engine and hooks |
| PipelineSafety.UnsweptAdoptsHook | internal/stacks/runner.go:180-190 | a run from the claim on in which that happens, its engine never started |
| PipelineProgress.TakenUpExactly | internal/api/deploy.go:656-696 | a reachable unfinished deployment is watched on, still running, if its row names a runner or a live main runner is found, and else closed as failed without a word |
| PipelineProgress.OutlivesRestart | internal/api/deploy.go:678-696 | after a crash and a restart the exit code of its main runner is the verdict after all |
| PipelineProgress.PlainBegins | internal/api/deploy.go:75-156 | a deployment without hooks is launched and watched, or closed as failed where that cannot be done |
| PipelineProgress.PlainRuns | internal/api/deploy.go:221-303 | from its beginning to its end: the verdict by the exit code unless cancelled, one notification, and the live hash of an OK up or pull |
| PipelineProgress.WatchLostCloses | internal/api/deploy.go:221-247 | a runner that cannot be waited on is removed and the deployment closed |
| PipelineProgress.CancelTakes | internal/api/deployment_handlers.go:296-326 | a cancellation takes if and only if the deployment still runs, and then it ends cancelled however it ends |
| PipelineProgress.ReconfirmedExactly | internal/api/deploy.go:318-368 | only an OK whose mark was written is rewritten to failed |
| HookedRun.Worker.RunHooked | internal/api/deploy_hooks.go:26-141 | without a crash the verdict, the pre hooks run, the one notification, the live mark and the call for repair are those of the first blocking failure, for every outcome of every phase; and no container is left unless a lost hook was not swept |
| StackRuns.OneAtATime | internal/store/stacks.go:443-480 | under any interleaving of deploys, cancellations, crashes, restarts and rollbacks at most one deployment of a stack runs |
| StackRuns.RestoresWhatWasGood | internal/api/deploy.go:370-399 | a deployment put back, by hand or automatically, was recorded OK before and had shipped a file, and that file is all the new one ever launches |
| LiveHash.LiveIsLastOK | internal/api/deploy.go:259-280 | the live hash is that of the last up or pull recorded OK if and only if that one is neither being finished nor cut off and nothing was written after its mark, or what was written is the same hash |
| LiveHash.OvertakenBySlower | internal/api/deploy.go:259-280 | a deployment whose mark is the last write, though another was recorded OK last, had been recorded before it |
| LiveHash.StepInStep | internal/api/deploy.go:259-280 | recording an OK always leaves the live hash behind, marking catches up if and only if nobody was recorded OK since, and no other step of a deployment changes whether it is behind |
| LiveHash.CutOff | internal/api/deploy.go:259-280 | a run in which the server dies between the verdict and the mark |
| LiveHash.CutForGood | internal/store/stacks.go:718-726 | nothing takes such a deployment up again |
| LiveHash.SlowMarkWins | internal/api/deploy.go:259-280 | a run in which two deployments are marked in the other order than recorded |
| LiveHash.AdoptionWins | internal/api/adopt.go:168 | a run in which an adoption moves the live hash with no deployment |
| LiveHash.LockedOut | internal/store/stacks.go:455-462 | while a deployment is running with nobody in charge no other of its stack is claimed, by hand or automatically |
| StackRuns.RollbackOnce | internal/api/deploy_hooks.go:248-270 | a deployment is answered by at most one automatic rollback, and one that restores by none |
| StackRuns.RollsBack | internal/api/deploy_hooks.go:134-137 | a failed verification that asked for it starts one deployment restoring the newest of the last fifty that stands as OK, deployed and has a file, if there is one and nothing else runs, and otherwise none |
| StackRuns.StartsExactly | internal/store/stacks.go:443-480 | a deployment asked for starts if and only if none of the stack runs; one put back by hand, if and only if besides it stands as OK, deployed and has a file |
| StackRuns.ShipsRestored | internal/api/deploy.go:370-399 | what is started ships the file of the one it restores, or else the one it is given |
| StackRuns.LastGoodIs | internal/api/deploy_hooks.go:274-289 | what is restored is the newest of the last fifty that stands as OK and shipped something, the failed one aside |
| DeployServer.Server.ClaimDeployment | internal/store/stacks.go:443-480 | a claim is refused while a deployment of the stack runs |
| DeployServer.Server.FinishDeployment | internal/store/stacks.go:520-555 | the cancel flag decides before the exit code does |
| DeployServer.Server.MarkStackDeployed | internal/store/stacks.go:270-280 | the live hash is a write of its own, one step of the stack's run |
| DeployServer.Server.FinishDeploy | internal/api/deploy.go:249-303 | the funnel is the verdict, then the notification unless cancelled, then the live hash of an OK up or pull, up to the last of these the server lives to write |
| DeployServer.Server.FailDeployment | internal/api/deploy.go:899-922 | a deployment that never reached a runner is recorded and, if the server lives, notifies whatever the verdict |
| DeployServer.Server.RequestCancel | internal/store/stacks.go:562-570 | only a running deployment can be flagged |
| DeployServer.Server.LastGoodDeployment | internal/api/deploy_hooks.go:274-289 | the search from the newest finds the one to restore |
| DeployServer.Server.RemoveHookRunners | internal/stacks/runner.go:180-190 | hook runners are removed one by one and nothing else is, or nothing when the daemon does not answer |
| DeployServer.Server.FindRunner | internal/stacks/runner.go:368-377 | the search by label finds a main runner that is there, never a hook's |
| DeployServer.Server.ReattachOne | internal/api/deploy.go:656-696 | the sweep, the row's own runner, the search and the watch or the failed verdict come to the specified step |
| DeployServer.Server.ReapOrphanedRuns | internal/api/deploy.go:656-696 | every unfinished deployment is reattached in turn or skipped; left with nobody in charge are exactly those that were and cannot be reached |
| DeployServer.Server.Start | internal/api/server.go:108-120 | after a restart exactly the unfinished deployments that cannot be reached run with nobody in charge |
| DeployServer.SkippedHoldsClaim | internal/api/deploy.go:662-671 | such a deployment holds its stack's claim: whatever happens until a restart reaches it, every claim is refused |
| Keyring.Ring.Rotate | internal/store/keyrings.go:145-170 | one transaction demotes the active version and appends a fresh active one |
| Keyring.Ring.RetireVersion | internal/store/keyrings.go:201-209 | a version is retired if and only if it may only decrypt |
| Keyring.Ring.Files | internal/api/keyring_delivery.go:293-333 | the document is built if and only if every live version unseals, the active one decodes and there is one; and it holds exactly the live versions |
| Keyring.RunReadable | internal/api/keyring_handlers.go:134-144 | over any run after seeding exactly one version is active, the last minted, and the live versions are those minted and not retired |
| Keyring.DocumentIsReadable | internal/api/keyring_delivery.go:301-329 | every document built along a run names the last version minted as current, the one active key, and holds exactly the versions minted and not retired |
| Keyring.MintedHolds | internal/store/keyrings.go:145-170 | every version minted along a run holds the material and the time its own rotation was given |
| Keyring.DocumentHolds | internal/api/keyring_delivery.go:301-329 | and so does its key in every document it is in |
| Keyring.CurrentIsLastMinted | internal/api/keyring_handlers.go:134-144 | the current key of a document is the material and time of the last rotation, and the bytes beside are that material decoded |
| Keyring.BuildsExactly | internal/api/keyring_delivery.go:293-333 | a document can be built if and only if every version minted and not retired unseals and the material minted last decodes |
| Keyring.KeysPersist | internal/api/keyring_delivery.go:301-329 | a key in one document is in every later one, with the same material, if and only if it was not retired in between |
| Keyring.Sweep | internal/api/keyring_worker.go:53-101 | the worker rotates a keyring if and only if it is due and rotation succeeds |
| Keyring.OncePerPeriod | internal/api/keyring_worker.go:60-83 | after a rotation a keyring is due again exactly when its whole period has passed, and never without one |
| Keyring.ScheduleExactly | internal/api/keyring_worker.go:75 | the period is the number of days asked for if and only if that is at most 106751 |
| Keyring.ScheduleRunsAway | internal/api/keyring_worker.go:75 | with 150000 days a keyring is due whatever its age |
| Limiter.Limiter.Allow | internal/auth/ratelimit.go:28-37 | an attempt is admitted when the key's bucket is closed or not full |
| Limiter.Limiter.Fail | internal/auth/ratelimit.go:40-50 | a failure opens a bucket that closes a window later, or is counted in the open one |
| Limiter.FailuresBounded | internal/auth/ratelimit.go:28-50 | any closed interval one window long holds at most 2·max − 1 recorded failures of a key |
| Limiter.BoundAttained | internal/auth/ratelimit.go:28-50 | and some run of admitted attempts reaches that number |

## Left out

- Registries, networks, keyrings and keyring deliveries as manifest kinds: their steps are those of an SSH key or a keyring's schedule again, or ask a Docker daemon.
- The report's details, ids, counters and list of unfilled slots, the audit trail and the apply history: they record verdicts and do not feed back into them.
- Errors of the store, the sealer and the daemon inside a walk, other than a webhook name taken under it and a certificate repeated in one delivery: a walk that meets one stops as modelled.
- Validation and YAML parsing: documents are taken as validated, and for the reconciler's theorems with identities distinct on the clusters they land on, which `ManifestIdentity` decides.
- In what order a reader meets a stack's variables and secret files: the store returns them by key (`internal/store/stacks.go:315`), the model keeps them as merged and says of the store only which are there.
- The manifest's own scope for CA states: a declared certificate is issued from any CA that can sign, as in the code; rotation states are modelled in `Rotation`.
- Comparisons.VolFilesEqual: says nothing of what equality means for lists with a repeated path, which the store and validation exclude.
- File modes, owners on disk, tar framing and restarting consumers: a volume is a map from path to content, and uid and gid enter only the hash.
- A manifest cut off in the middle of its own write: it is the old one, the new one or gone; a truncated one could name files by their first letters.
- Keyring deliveries' sync: it writes its two files on every node with no manifest and no removal, so it is the first third of the modelled sync.
- X.509, key generation and verification: a leaf knows its signer, and re-signing may fail at any leaf.
- Handlers of the rotation machine are atomic but for the re-signing loop; the order of their last writes under a crash is not part of this model.
- What a deployment ships (bundle, warnings, logs, volume-source sync) beyond its file, its hash and success or failure; and store errors while its verdict, its mark or its runner's id is written, other than the runner's id going missing.
- StackRuns.RestoresWhatWasGood: speaks of the file and not of the hash, since a rollback ships the stored file with the variables and registry logins of now (`internal/api/deploy.go:377-389`).
- SharedVolume.SyncsCommute: that the names of the two are disjoint is checked by `refuseDeliveryOwnedNames` only beside a delivery with a Traefik fragment (`internal/api/cert_delivery.go:362-369`); beside a plain delivery it is an assumption.
- DeliverySafety.NoOrphans: asks that nobody else write a manifest of this name; what a second certificate delivery on the volume does is in `TwoDeliveries`.
- TwoDeliveries.OnePrevails: each of the two wants the same throughout; for wants that change, `TwoDeliveries.TrueRecords` says whose record is true and not which stale files are left.
- TwoDeliveries.TrueRecords: speaks of two deliveries on fixed nodes and of no third writer; what others and joining nodes do to a record is in `HashGate.GateExactly`.
- PipelineSafety.ReattachExactly: a sweep that removes some hook runners and not others counts as one that did not go through; only the runner the row names decides.
- Pipeline.Step: a runner's timeout and kill are an exit or a lost wait at any moment; how long anything takes is not modelled.
- Alarms, notifications' wording, backoff, the retention of deployments and the liveness check's own inspection, of which only the later rewriting of a verdict is modelled.
- Age arithmetic of the keyring worker saturates in the code; ages within 64 bits are assumed.
