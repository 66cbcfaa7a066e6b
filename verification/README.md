# Server setup: a verified model

This project models the parts of server-setup that change a machine, and proves what they promise over whole runs:
the host reconciler (`server_setup/`), package maintenance with rollback, the deploy engine as a transaction, and the
stores and translations around it (server.conf, environment files, the site registry, DNS previews, the legacy
cut-over). `dafny verify dfyconfig.toml` checks all of it.

## What is modelled

**The host and its faults.** `Host.Machine` is what the modules can observe of a host; `Host.System.Run` executes one
command. `Effect` says which hosts may result: a successful command does what the repository's fake system says, a
failing one may have done its work or not, and apt and the Dokploy installer may have done any part of it. Every
executed command is a step of a ghost journal, so safety is stated for every prefix of every run.

**The reconciler.** Five modules plan, apply and validate against one shared host, driven by `ServerSetupCore`.
`Progress` holds the argument: every component of the host either stays or takes its desired value (`Evolves`), an
achieved change stays achieved under that relation, and so a completed apply ends with an empty plan.

**Maintenance.** Snapshot, upgrade and rollback over the same host.

**Deploys.** `DeployEngine.Engine` runs the stages with hooks and certbot as arbitrary writers of the same files and keeps
a log of its operations; `DeployRecord` is the persistent record over many runs, with the webhook receiver as a second writer.

**Plans.** `PlanLaws` says, over host and configuration alone, when each change stands in the default plan.

**Stores.** server.conf and the registry form are translated into each other; environment files are compared with the
maps they stand for; the registry is a sorted list with two keys; DNS changes are proposed, previewed and sent.

**The cut-over.** `LegacyCutover.Script` is the shell script's state with a history of stops, starts, disables and looks.

## Where the code and its promises differ

The model follows the code. Where a promise does not hold for every input, the exact condition is proved:

- The idempotency contract of README.md:60-69 fails exactly when a monitoring service runs on a docker without compose
  while Dokploy is about to be installed or updated: planning cannot see the service, the installer makes it visible
  (`Convergence.Converges`; a failing run on a supported host is `IdempotencyFailure.HiddenServiceFails`).
- The plan text says that SSH is allowed before activation. That holds at every step unless UFW was already active with
  a required rule missing: default-deny then comes first (`SecurityModule.SetUpFirewall`).
- `unsupported-host` is not a terminal action (server_setup/core.py:11); an unsupported host stays untouched because the
  host module comes first (`Convergence.UnsupportedRefused`, `Core.ServerSetupCore.Apply`).
- A failing `systemctl reload ssh` comes after the legacy drop-in was removed; the drop-ins are restored only on the
  errors before it (`SecurityModule.HardenSsh`).
- Rollback restores a file exactly unless its old content lacked a final newline and it was changed, and never an
  enabled link that was a regular file (`DeployEngine.Engine.Deploy`).
- A SystemExit in the DNS stage leaves the record at "running" and rolls nothing back (`Engine.Deploy`).
- A legacy deploy record forgets its release on a failure (`DeployRecord.LegacyRecordForgets`).
- The server.conf round trip fails exactly for empty hooks, an empty hostname list and a working directory that is
  absolute once stripped (`ServerConf.RepairRoundTrip`, `RepairableInFile`).
- Updating an environment file rewrites the first line of a key while loading takes the last, and a key with an equals
  sign, a leading # or a line break is never loaded and appended anew by every update (`EnvFile.UpdateRefinesMap`,
  `EnvEdits.UpdateIdempotent`).
- A secret with a line break that is not CR or LF is written unquoted and does not come back, and neither does a secret
  under a name that cannot be loaded, such as `A=B` (`EnvSecrets.SecretRoundTrip`, `SecretRepeats.SecretTwice`).
- With repeated record ids a DNS change drops records that its diff does not report. For Namecheap the list shown is
  still the list sent, for every list of records (`Dns.PreviewConserves`, `Dns.RepeatedId`, `Dns.Zone.Run`).
- The legacy cut-over leaves the stopped units down when removing the installer's temporary file fails after a
  successful installation: `set -e` then ends the script before the readiness check (scripts/legacy_setup.sh:370;
  `LegacyCutover.Script.InstallDokploy`).

## What is assumed

- Read-only queries (dpkg-query, ufw status, sshd -t and -T, docker inspect, ss) are functions of the host and do not fail
  on their own; writing and removing files on the managed host does not fail half-way.
- apt changes only the packages it was given; the Dokploy installer only adds packages and, when it succeeds, provides
  docker, compose and the requested version.
- `WellFormed`: without docker there is no compose and no compose service runs.
- `HardeningStable`: once the hardening drop-in is valid and effective, it stays so without the legacy drop-in, and sshd
  reports the same ports. A run needs this only if it hardens SSH (`SshAssumed`). Where it is assumed it stands in the
  contract; the exact reload condition needs no assumption.
- `ValidProcess`: Python's text for a truthy JSON value is not empty.
- In the cut-over, systemctl acts on the named unit only, and one readiness look is a single step.

## Model

| member | source | states |
|---|---|---|
| Host.System.Run | server_setup/system.py:47-58 | A command leaves a host that `Effect` allows and appends one step to the journal; a failing command may have done its work, apt and the installer any part of it. |
| HostModule.ParseOsRelease | server_setup/modules/host.py:34-42 | The line-by-line loop computes the release that the specification reads (`LastAssignmentWins`); a missing file, ID or VERSION_ID reads as unknown. |
| HostModule.LastAssignmentWins | server_setup/modules/host.py:36-41 | A key has a value exactly if some line assigns it (a line that is not a comment and has an equals sign), and the value is the one assigned by the last such line. |
| HostModule.AssignmentIsRead | server_setup/modules/host.py:40-41 | A line key=value assigns the value without the quotes around it. |
| HostModule.QuotesGo | server_setup/modules/host.py:41 | A quote more on either side changes nothing, and exactly the texts that have none at either end stay as they are. |
| HostModule.Install | server_setup/modules/host.py:79-84 | Only packages change, and none that was installed is lost; on success every package named by the change is installed, whatever the configuration, and the host has progressed. The commands are an update and one installation of the named packages. |
| HostModule.SetZone | server_setup/modules/host.py:85-88 | Only the time zone and /etc/timezone change; on success a zone written without outer space is the reported one, whatever the configuration, and the host has progressed. |
| HostModule.Apply | server_setup/modules/host.py:76-90 | An unsupported-host change refuses with the host and journal untouched. A normal return means that every handed change that no later one of the batch opposes is achieved, whatever the configuration (zones written without outer space). CommandError is raised exactly when a command failed; any other error only for an unsupported host, an unknown action or an empty zone. |
| SshdReading.CollectPorts | server_setup/modules/security.py:101-143 | The nested loops over one `sshd -T` output and the session variable collect exactly the decoded ports (`DecodedPorts`), and 22 when there are none. |
| SshdReading.LastSettingWins | server_setup/modules/security.py:101-111 | A setting is known exactly if some line sets it, with the lower-cased value of the last such line. |
| Text.DecimalReads | server_setup/modules/security.py:155 | For every number: its text consists of digits, begins with 0 only for zero, and reads back as the number. |
| Text.DecimalDigit | server_setup/modules/security.py:155 | The k-th digit from the end of a number's text is that of the number: n / 10^k mod 10. |
| SshdReading.DecodedPorts | server_setup/modules/security.py:113-130 | A port is decoded exactly if a line with the literal key `port` names it, or if it is among the words of the last value for the key `port` in any spelling. |
| SecurityState.DetectedPorts | server_setup/modules/security.py:113-143 | The detected ports are exactly those of the `sshd -T` report and of the session, and 22 when both are empty. |
| SecurityState.AscendingIsSorted | server_setup/modules/security.py:143 | The sorted port tuple lists every detected port, strictly increasing. |
| SecurityState.PortsAreRequired | server_setup/modules/security.py:155 | For every detected port the required rules hold its decimal digits, without a leading zero, followed by /tcp. |
| SecurityState.WebIsRequired | server_setup/modules/security.py:155 | 80/tcp and 443/tcp are among the required rules. |
| SecurityState.OnlyPortsAreRequired | server_setup/modules/security.py:155 | Every other required rule is such a text for a detected port. |
| SecurityState.JailNamesPorts | server_setup/modules/security.py:48-58 | The jail text names exactly the given ports, each in decimal digits without a leading zero, in increasing order, separated by commas. |
| SecurityModule.EnsurePackages | server_setup/modules/security.py:219-228 | Only packages change; on success every asked package is installed and none that was installed is lost. The commands are an update and the installation of exactly the missing ones, or none. |
| SecurityModule.SetUpUnattended | server_setup/modules/security.py:230-234 | Touches only its two files, packages and services; on success the feature reads as ready, and the commands were those of the source in order. |
| SecurityModule.SetUpFail2ban | server_setup/modules/security.py:236-240 | Touches only the jail file, packages and services; on success the jail names exactly the detected ports, the feature reads as ready, and the commands, the restart included, were those of the source in order. |
| SecurityModule.SetUpFirewall | server_setup/modules/security.py:242-253 | At every step, whatever fails: rules only grow, and only by 80/tcp, 443/tcp and the decimal texts of detected ports; UFW is enabled only when it allows all of them; a firewall that let them through keeps doing so. On success it is active and allows them, and the commands were those of the source in order. A completed run has a step that locks SSH or web traffic out exactly when UFW started active with a required rule missing. |
| SecurityModule.KeySafeExactly | server_setup/modules/security.py:255-279 | Hardening is safe outside an SSH session, and inside one exactly if the user who called sudo, or else the user, is not root and has an authorized_keys text other than space in the home directory. |
| SecurityModule.HomeIsFirst | server_setup/modules/security.py:259-264 | The home directory is the sixth field of the first passwd line of the user that has six, and there is none without such a line. |
| SecurityModule.HardenSsh | server_setup/modules/security.py:287-303 | The reload is issued exactly on hosts where the key check passes, sshd exists, and the drop-in is valid and effective, in a session only with the key of `KeySafeExactly`, after writing the drop-in and removing the legacy one; on all other hosts an error is raised and both drop-ins read as before. |
| SecurityModule.RestoreHardening | server_setup/modules/security.py:281-285 | The managed drop-in is put back to its old content or absence; nothing else changes. |
| SecurityModule.ApplyOne | server_setup/modules/security.py:305-316 | CommandError is raised exactly when a command failed, any other error exactly for an unknown action or an SSH hardening of a host that cannot be hardened; a normal return achieves the change. |
| SecurityModule.Apply | server_setup/modules/security.py:305-316 | For every prefix of changes and every failing command the steps are in order (see `Journal`); a normal return achieves every handed change. |
| DokployModule.WaitUntilHealthy | server_setup/modules/dokploy.py:158-163 | Returns only on a healthy host; gives up after exactly 60 sleeps, with no healthy look before the last. |
| Host.ImageTagIsRead | server_setup/modules/dokploy.py:46-51 | The version of an image is its tag if that begins with v, whatever registry stands before it and whatever digest behind it; any other tag is no version. |
| DokployModule.Download | server_setup/modules/dokploy.py:153-156 | Whatever was in the installer's place is removed; success leaves the installer of the wanted version there, and nothing else changes. |
| DokployModule.RunAndWait | server_setup/modules/dokploy.py:178-186 | The run is the installer, sleeps and the removal of its file, on every exit; success means healthy Dokploy at the wanted version and no package lost. |
| DokployModule.ApplyOne | server_setup/modules/dokploy.py:165-186 | Nothing is done exactly for a change that is malformed (another action or no version) and for an installation refused by the apply-time re-check; a normal return achieves the change. CommandError means a failed command; any other error a malformed change, a refused re-check, or a successful installer that left Dokploy unhealthy. |
| DokployModule.Apply | server_setup/modules/dokploy.py:165-186 | On a normal return the last handed change is achieved, whatever the configuration, and all of them are when they agree with it; only Dokploy's own parts of the host can differ. |
| MonitoringModule.ApplyOne | server_setup/modules/monitoring.py:143-155 | CommandError is raised exactly when compose failed, any other error exactly for an unknown service or action, without a command; otherwise the one command starts or stops the target, and a normal return achieves the change. |
| MonitoringModule.Apply | server_setup/modules/monitoring.py:138-155 | Refuses with host and journal untouched when compose is missing; compose is used only where it exists; on a normal return every change that no later one opposes is achieved, whatever the configuration. |
| Modules.PlanConforms | server_setup/modules/host.py:63-74 | Every change that any of the five modules plans agrees with the configuration. |
| Modules.ModuleDrift | server_setup/modules/security.py:180-217 | For each of the five modules, in every host state: it plans something exactly when its own validation fails. |
| Modules.ApplyModule | server_setup/modules/factory.py:14-22 | The common contract of the five modules: orderly steps, achieved changes, services touched by monitoring only and docker by Dokploy only. |
| Progress.EvolvesTransitive | ARCHITECTURE.md:75-79 | Moving every component towards its desired value composes over runs. |
| Progress.AchievedStays | ARCHITECTURE.md:75-79 | No later progress by any module undoes a change that has been achieved. |
| Progress.ProgressAdds | server_setup/core.py:56-59 | Batches carried out one after the other are all achieved at the end. |
| Progress.JournalJoin | server_setup/modules/security.py:242-253 | Orderly runs of consecutive modules form one orderly run measured from its start. |
| Dispatch.HandedExactly | server_setup/core.py:56-59 | A module receives exactly its own changes without the no-ops, in plan order and in one batch; an unknown name receives nothing. |
| Dispatch.HandedOnce | server_setup/core.py:56-59 | The changes handed out are, as a multiset, the changes of known modules that are not no-ops: none lost, none twice. |
| Dispatch.KnownIsWithoutNoops | server_setup/plan.py:45-46 | When all owners are known, what is handed out is the plan without its no-ops. |
| Core.DriftAgrees | server_setup/cli.py:175-176 | For any modules and host: the plan has changes exactly when validation is not ok. |
| Core.PlanOfConforms | server_setup/core.py:31-41 | Every planned change conforms to the configuration, belongs to one of the modules and is not a no-op. |
| PlanLaws.DokployPlanned | server_setup/modules/dokploy.py:95-151 | The default plan holds a Dokploy block exactly when Dokploy is enabled and either not installed while 80, 443 or 3000 listens or a swarm is active, or installed and unhealthy; the installation exactly when it is enabled, not installed and nothing is in its way, and then the check at apply time passes; the update exactly when it is healthy at another known version; nothing else. |
| PlanLaws.RefusedExactly | server_setup/modules/dokploy.py:171-177 | The check at apply time refuses exactly for a listening port 80, 443 or 3000, or for a swarm without Dokploy. |
| PlanLaws.HostPlanned | server_setup/modules/host.py:63-74 | The refusal exactly on systems other than Debian 12 and Ubuntu 24.04; otherwise one change that names exactly the missing base packages, and the time zone exactly when the reported one differs; nothing else. |
| PlanLaws.SecurityPlanned | server_setup/modules/security.py:180-217 | Each security feature is planned exactly when it is wanted and not set up on the host, the firewall as dangerous exactly unless UFW is installed and active; nothing else. |
| PlanLaws.MonitoringPlanned | server_setup/modules/monitoring.py:82-136 | Monitoring blocks exactly when a service is wanted without the bundle, or without compose and without an installation to bring it; otherwise a service is started exactly when wanted and not seen, stopped exactly when seen and not wanted; nothing else. |
| PlanLaws.DnsPlanned | server_setup/modules/deferred.py:15-17 | The deferred change is planned exactly when DNS is enabled; nothing else. |
| PlanLaws.NothingElsePlanned | server_setup/core.py:31-41 | Every planned change belongs to one of the five modules and is not a no-op. |
| PlanLaws.PlannedInOrder | server_setup/modules/factory.py:14-22 | The changes of the default plan stand in the order host, security, Dokploy, DNS, monitoring. |
| PlanLaws.BlockedExactly | server_setup/core.py:43-55 | The default plan is terminal exactly when DNS is enabled or Dokploy or monitoring blocks, read off host and configuration. |
| PlanLaws.HiddenExactly | server_setup/modules/monitoring.py:64-73 | A service is hidden exactly when it runs on a docker without compose beside the bundle, while Dokploy is enabled and missing, unhealthy or at another known version. |
| PlanLaws.WarnedExactly | server_setup/modules/dokploy.py:188-251 | Validation warns exactly of an installed Dokploy whose version is unknown or whose admin port 3000 listens, and of docker on a host whose firewall is managed. |
| Core.Assemble | server_setup/core.py:21-29 | Construction succeeds exactly for non-blank, pairwise distinct module names. |
| Core.ServerSetupCore.MakePlan | server_setup/core.py:31-41 | The loop returns the modules' plans in order and never raises for modules that own their changes. |
| Core.ServerSetupCore.Validate | server_setup/core.py:63-72 | The loop returns the modules' reports in order. |
| Core.ServerSetupCore.HandOver | server_setup/core.py:57-59 | Module i receives its batch if it is not empty; an opening unsupported-host change stops everything untouched. |
| Core.ServerSetupCore.Distribute | server_setup/core.py:56-60 | On return the batches handed out are those of the plan in module order, and their changes are achieved. |
| Core.ServerSetupCore.Apply | server_setup/core.py:43-61 | A plan with an unknown owner, a blocked or deferred change, or an opening unsupported-host change raises with host and journal untouched, whatever else it holds; a normal return has handed out and achieved every batch; a plan without changes changes nothing. CommandError is raised exactly when a command failed, and a plan of changes that no module may refuse completes whenever every command succeeds. |
| Convergence.PlanIsHandedOut | server_setup/core.py:31-61 | For plans the core made itself, the joined batches are the plan. |
| Convergence.HostSettles | server_setup/modules/host.py:63-74 | After an achieved run the host module plans nothing. |
| Convergence.SecuritySettles | server_setup/modules/security.py:180-217 | After an achieved run the security module plans nothing. |
| Convergence.DokploySettles | server_setup/modules/dokploy.py:95-151 | After an achieved run the Dokploy module plans nothing. |
| Convergence.MonitoringSettles | server_setup/modules/monitoring.py:82-136 | After an achieved run the monitoring module plans nothing, exactly unless a service was hidden at the start. |
| Convergence.Converges | README.md:60-69 | From every well-formed host and configuration: after a completed apply the next plan is empty and validation ok exactly when no monitoring service was hidden from the run. |
| IdempotencyFailure.HiddenServiceFails | server_setup/modules/monitoring.py:64-73 | A run on a supported Debian 12 host in which every command succeeds and the planned Dokploy installation is achieved, after which the next plan is not empty and the report unhealthy. |
| Convergence.StaysVisible | server_setup/core.py:56-60 | A run whose installer did not fail, wherever it stopped, leaves a well-formed host that hides no service if the host before hid none. |
| Convergence.StartAfterInstall | server_setup/modules/monitoring.py:86-108 | A non-terminal default plan that starts a service without docker holds a Dokploy installation strictly earlier. |
| Convergence.UnsupportedRefused | server_setup/modules/host.py:66-67 | On an unsupported host the default plan opens with the change that makes apply refuse. |
| Convergence.NeverLockedOut | server_setup/modules/security.py:242-253 | Starting with UFW inactive, at every step of every run at which UFW is active, 80/tcp, 443/tcp and, for every SSH port, its decimal digits without a leading zero and /tcp are among the rules. |
| Convergence.NothingElseOpened | server_setup/modules/security.py:242-253 | No step of any run finds a firewall rule added that is not 80/tcp, 443/tcp or the decimal text of an SSH port detected at the start. |
| Sorting.SortedItemsOf | server_setup/maintenance.py:78 | Sorting a dict's items keeps them all and lists them strictly sorted. |
| Sorting.SortedItemsUnique | server_setup/maintenance.py:117-122 | A strictly sorted item list is the only one its dict sorts to. |
| Sorting.LeExactly | server_setup/maintenance.py:78 | The order of the names is that of Python's strings: by the first character that differs, a prefix first. |
| Maintenance.CurrentVersions | server_setup/maintenance.py:57-65 | The loop returns the installed versions, and refuses exactly when an unmanaged package is asked for. |
| Maintenance.CaptureSnapshot | server_setup/maintenance.py:73-80 | The captured snapshot is the specified one; a configuration that does not parse raises. |
| Maintenance.CaptureShape | server_setup/maintenance.py:73-80 | A captured snapshot lists exactly the installed managed packages with their versions, sorted. |
| Maintenance.ManagedExactly | server_setup/maintenance.py:38-46 | A configuration manages exactly the six base packages and those of the features it turns on; ten packages may be managed at all. |
| Maintenance.SnapshotRoundTrip | server_setup/maintenance.py:83-128 | Parsing a rendered capture gives it back exactly when the configuration text is not blank and every version fits the version pattern; otherwise it is refused. |
| Maintenance.ParsesExactly | server_setup/maintenance.py:93-128 | Which documents parse as a snapshot, key by key: no other keys, schema 1, a configuration text that parses, managed packages with well-formed versions, and no blank Dokploy version; and what the snapshot then holds. |
| Maintenance.VersionCharExactly | server_setup/maintenance.py:20 | A version is made of ASCII letters, digits and . + : ~ _ - only. |
| Maintenance.ParsedNamesManaged | server_setup/maintenance.py:107-122 | Every snapshot that parses names only packages managed by its embedded configuration. |
| Maintenance.UpgradePackages | server_setup/maintenance.py:131-143 | Only the selected packages can differ, even when apt fails half-way; the returned ones are those that were installed, and exactly they were upgraded after an update; raises exactly when apt failed. |
| Maintenance.NoDriftIsAtSnapshot | server_setup/maintenance.py:165-172 | Version drift is empty exactly when every recorded package has its recorded version. |
| Maintenance.RollbackPackages | server_setup/maintenance.py:146-162 | Only recorded packages can differ; a normal return has every one of them at its recorded version, and exactly those that differed were pinned after an update; raises exactly when apt failed. |
| Cli.ConsentIsExplicit | server_setup/cli.py:132-147 | A plan with changes is let through exactly when --yes was given or somebody agreed at a terminal; a dangerous one also needs --allow-dangerous, or that agreement in person without --yes. |
| Cli.Drift | server_setup/cli.py:175-176 | The exit code is 1 exactly when the plan is not empty; the validation half never disagrees. |
| Cli.Apply | server_setup/cli.py:159-172 | Without root, changes, consent or a supported host, or when something blocks (`PlanLaws.BlockedExactly`), nothing is changed; any step at all implies root and consent to the plan. Exit 0 means that the next plan is empty, and a completed run from a sound host exits 0 exactly unless a service was hidden. A confirmed run raises only when a command failed or the plan is terminal or refusable. |
| Cli.ApplyPlan | server_setup/cli.py:169-172 | The same for the step from a confirmed plan to its exit code. |
| Cli.ApplyTwice | server_setup/cli.py:159-172 | From a well-formed host with a valid configuration, sshd as assumed and no hidden service: an apply that stopped anywhere without a failing installer can be repeated; if the second call completes, it exits 0 and the next plan is empty. |
| Cli.Upgrade | server_setup/cli.py:225-259 | The snapshot of the host before is stored before the first apt command and survives every failure; at every step only recorded packages can differ; without root, a drift-free host, and --yes or an answer at a terminal it refuses untouched, and past these guards it raises exactly when an apt command failed. |
| Cli.Rollback | server_setup/cli.py:262-301 | Refused with host and journal untouched without root, without --yes or an answer at a terminal, or without a readable snapshot of this configuration and Dokploy version; past these guards it raises exactly when an apt command failed. Exit 0 means recorded versions everywhere and no drift. At every step only managed packages can differ. |
| Cli.ManagedInstalled | server_setup/maintenance.py:38-46 | On a host without drift every managed package is installed. |
| Cli.UpgradeThenRollback | server_setup/cli.py:225-301 | An allowed upgrade, however far apt got, followed by a rollback that exits 0 leaves the whole package database as it was; whatever was allowed or refused, no unmanaged package differs at any step or at the end. |
| DeployRecord.RecordTracksRuns | scripts/deploy_engine.py:596-622 | After any run of successes, failures, aborts and webhook pre-deploy failures (of entries without a checkout path too) from an empty record: the last successful release is the latest success, the current release equals it once there is one, and each attempt recorded the success before it. |
| DeployRecord.LastEventWritten | scripts/deploy_engine.py:655-763 | After any run the record holds, field by field, what its last event wrote: a failure its stage, rollback status and reason; an abort the status running with nothing rolled back; a success no failure and its path as release; a webhook failure that, with the rollback fields and releases as before; always the path of the last attempt. |
| DeployRecord.FirstAttemptIsCurrent | scripts/deploy_engine.py:667-672 | Before any success the current release is the path of the first attempt. |
| DeployRecord.FailureKeepsRelease | scripts/deploy_engine.py:614-622 | A failure keeps the previous successful release exactly when it is stored under its own key or there is none. |
| DeployRecord.LegacyRecordForgets | scripts/deploy_engine.py:614-622 | A record that only has a current release and a success status loses its release on the next failure. |
| DeployEngine.WriteIfChanged | scripts/deploy_engine.py:249-262 | Reports a change exactly when the content differs; the file then ends in a newline. |
| DeployEngine.FileRestoredExactly | scripts/deploy_engine.py:477-490 | A restored file equals the snapshotted one exactly if it was absent, ends in a newline, or had not changed. |
| DeployEngine.NewlineWitness | scripts/deploy_engine.py:249-262 | A file that held just the letter `a`, without a final newline, and was changed comes back with one. |
| DeployEngine.LinkRestoredExactly | scripts/deploy_engine.py:526-532 | The enabled link comes back exactly unless it was a regular file. |
| DeployEngine.Engine.CaptureService | scripts/deploy_engine.py:463-474 | The snapshot is that of the unit file at that moment; static sites take none. |
| DeployEngine.Engine.EnsureService | scripts/deploy_engine.py:443-460 | On success the unit file holds the rendered unit; it is touched only then or on a failing write. A changed unit file is made known to systemd and enabled before the restart, an unchanged one only restarted. |
| DeployEngine.Engine.WaitForHealth | scripts/deploy_engine.py:493-502 | At most the configured probes; failure only after all of them. |
| DeployEngine.Engine.CaptureNginx | scripts/deploy_engine.py:505-515 | The snapshot is that of the configuration and link at that moment. |
| DeployEngine.Engine.ApplyNginx | scripts/deploy_engine.py:540-581 | On success configuration and link are the rendered ones, tested and then reloaded; the steps are those of the source in order, up to the first that raises; after a failed test the last good configuration, if there is one, is copied back. A change to either is accounted for even when a step raises half-way. |
| DeployEngine.Engine.RestoreService | scripts/deploy_engine.py:477-490 | A completed restore leaves the unit file as `RestoredFile` says from any present content, tells systemd, and restarts the service or stops and disables it. |
| DeployEngine.Engine.RestoreNginx | scripts/deploy_engine.py:518-537 | A completed restore leaves configuration and link as specified from any present state, tested and then reloaded. |
| DeployEngine.Engine.Rollback | scripts/deploy_engine.py:625-642 | Not needed exactly without snapshots; succeeded means that every snapshotted artefact was restored; failed exactly when a step of it raised, and no step came after that one. |
| DeployEngine.Engine.RollBackAttempt | scripts/deploy_engine.py:625-642 | A rollback that succeeded left the unit file and the configuration as they were exactly if they were absent, ended in a newline or had not changed, and the link exactly unless it was a regular file. |
| DeployEngine.Engine.RunServiceStages | scripts/deploy_engine.py:680-697 | The unit file is touched only after its snapshot; past the health check it is the rendered one and answered. The steps are the planned ones in order, and a failure is reported for the stage whose step raised. |
| DeployEngine.Engine.RunStages | scripts/deploy_engine.py:680-721 | No artefact is touched before its snapshot, at any failing stage; the steps are the planned ones in order up to the first that raises, and the failure is reported for its stage; passing all stages means that the rendered texts were put in place. |
| DeployEngine.Engine.Deploy | scripts/deploy_engine.py:645-761 | After a failure at any stage with arbitrary damage to the files: rollback succeeded means that unit file and configuration are as snapshotted exactly if they were absent, ended in a newline or had not changed, and the link exactly unless it was a regular file; not needed means that the engine touched none. The attempt runs the planned steps in order up to the first that raises, finishes exactly when none does, and fails with the stage of that step; the rollback runs its steps likewise; nginx is reloaded only on the configuration and link that its test has just passed, in the attempt and in the rollback. A SystemExit of the DNS stage is its own outcome. The record holds status, failed stage, rollback status and reason, path and releases of exactly this outcome. |
| ServerConf.NormalizedShape | scripts/server_conf_contract.py:289-374 | Every accepted server.conf normalizes to trimmed, non-empty texts and positive limits. |
| ServerConf.AcceptedExactly | scripts/server_conf_contract.py:289-374 | Which server.conf files are accepted, key by key: known keys only, name, domain and a build output or web root that are not blank, plain sections, relative non-blank working directory, positive limits, command and port in service mode, host names that are not blank, a known DNS provider. |
| ServerConf.FileRead | scripts/server_conf_contract.py:355-374 | What an accepted file means, key by key: stripped texts, the three hooks under their own names, the runtime of `RuntimeRead`. |
| ServerConf.RuntimeRead | scripts/server_conf_contract.py:236-286 | What a runtime section means, missing keys included: mode static, working directory ., 20 retries, 2 seconds, /health, the USER variable or root. |
| ServerConf.SectionsRead | scripts/server_conf_contract.py:325-353 | A missing service name becomes the site name with .service, a missing or null host name list the domain, a missing redirect false, a missing zone the domain in lower case, an empty dns section none. |
| ServerConf.FillRuntime | scripts/repair_site.py:76-91 | The key-by-key loop over the runtime section builds the table of `RuntimeWritten`. |
| ServerConf.RuntimeWritten | scripts/repair_site.py:76-91 | Of the stored runtime section exactly the known keys are written whose value is neither null nor the empty text. |
| Json.FalsyExactly | scripts/repair_site.py:58-64 | False in Python are null, false, the numbers zero, the empty text, the empty list and the empty object, and nothing else. |
| ServerConf.RuntimeBack | scripts/server_conf_contract.py:236-286 | A stored runtime section is rendered unchanged and normalizes to itself, unless its working directory is absolute, which is refused. |
| ServerConf.HooksBack | scripts/repair_site.py:54-118 | Hooks come back, empty ones as absent. |
| ServerConf.NginxBack | scripts/repair_site.py:54-118 | Nginx settings come back; an empty hostname list comes back as the domain. |
| ServerConf.DnsBack | scripts/repair_site.py:54-118 | A stored dns section comes back. |
| ServerConf.BackFromRendered | scripts/server_conf_contract.py:289-374 | What the regenerated server.conf normalizes to, for every stored configuration. |
| ServerConf.RepairRoundTrip | scripts/repair_site.py:54-118 | For every accepted server.conf, both modes and any two process environments: the regenerated file normalizes to the stored configuration exactly when that is repairable. |
| ServerConf.RepairableInFile | scripts/server_conf_contract.py:245-261 | Repairable, read off the file before storing: no empty hook, no empty hostname list, no working directory that is absolute once stripped. |
| ServerConf.EmptyHostNamesWitness | scripts/server_conf_contract.py:332-335 | The smallest server.conf with an empty hostname list is accepted and not repairable; the same file without the list is. |
| Repair.Checkout.WriteMissing | scripts/repair_site.py:121-135 | An existing file is kept; a missing one is written and reported exactly when the regenerated file is accepted. |
| EnvFile.LoadIsLookup | scripts/simple_setup_common.py:81-91 | Loading gives a key the value of its last line, and only keys with a line. |
| EnvFile.LinesOfJoin | scripts/simple_setup_common.py:94-118 | Lines without breaks, written and split again, are the lines. |
| Text.SpacesAndBreaks | scripts/simple_setup_common.py:81-91 | The characters that `str.strip` removes and those at which `str.splitlines` ends a line, one by one; every line break is space. |
| Text.LinesCrLf | scripts/simple_setup_common.py:81-91 | A carriage return with a newline behind it ends one line. |
| Text.LowerExactly | scripts/server_conf_contract.py:352 | Lower-casing moves exactly the 26 ASCII capitals by 32. |
| EnvFile.BodyLookup | scripts/simple_setup_common.py:117-118 | Joining, stripping and ending in a newline changes no key's value. |
| EnvFile.UpdateLaw | scripts/simple_setup_common.py:94-118 | For all updates with distinct keys: only keys and values that can be read back are ever loaded, and when the updates can be, a key that occurs at most once loads as updated, without outer space, and every other key as before. |
| EnvFile.UpdateRefinesMap | scripts/simple_setup_common.py:94-118 | For all updates with distinct keys: load(update(f, u)) is load(f) + u exactly when every updated key and value can be read back (no outer space or line break, no equals sign in the key, no leading # in it) and no updated key is a duplicate whose last line says something else. |
| EnvEdits.UpdateIdempotent | scripts/simple_setup_common.py:94-118 | For updates without line breaks, repeating an update leaves the text as it is exactly when every key can be read back; an unreadable key is appended again. |
| EnvEdits.UpdateKeepsLines | scripts/simple_setup_common.py:94-118 | Comments, blank lines and lines of other keys come through exactly and in order, with at most one blank line added before appended updates; only the end of the file is trimmed. |
| EnvEdits.OneBlankLine | scripts/simple_setup_common.py:112-116 | Appended updates are set off by one blank line, unless the file is empty or already ends in one. |
| EnvEdits.DeleteKeepsLines | scripts/repository_secrets.py:116-138 | Exactly the lines of other keys, comments and blank lines remain, in order, up to the trimmed end of the file. |
| EnvEdits.StrippedExactly | scripts/repository_secrets.py:121-123 | The keys deleted are the given ones without outer space, as far as they are not blank. |
| EnvEdits.DeleteRefinesMap | scripts/repository_secrets.py:116-138 | load(delete(f, K)) is load(f) - K, duplicates included. |
| SecretText.RenderedShape | scripts/repository_secrets.py:100-106 | A rendered value is trimmed; a quoted one is on one line. |
| SecretText.QuotedReads | scripts/repository_secrets.py:100-106 | A reader of JSON strings, written after section 7 of RFC 8259, gives every quoted value back: quotes, backslashes, control characters, \u escapes and surrogate pairs. |
| SecretText.PlainExactly | scripts/repository_secrets.py:100-106 | A value is written as it is exactly when it has no outer space and holds no newline, carriage return, #, double quote, single quote or space. |
| SecretText.RenderedMeans | scripts/repository_secrets.py:100-106 | Whatever a value is, its rendered text stands for it: read as a JSON string if it begins with a quote, otherwise as it is. |
| SecretText.EscapesAre | scripts/repository_secrets.py:100-106 | The seven short escapes, printable ASCII as it is, and \u escapes for everything else. |
| EnvSecrets.SecretRoundTrip | scripts/repository_secrets.py:168-184 | For every name, value and number of occurrences: loading returns the rendered value, which stands for the value, exactly when the name can be read back and the value is quoted or on one line, or, for a name that occurs several times, its last line already says it. |
| SecretRepeats.SecretTwice | scripts/repository_secrets.py:109-113 | For every name and value: setting the secret again leaves the file as it is exactly when the name can be read back and the value is quoted or on one line; otherwise each call leaves lines behind. |
| EnvSecrets.UnquotedBreak | scripts/repository_secrets.py:100-106 | A value with a vertical tab is rendered unquoted and so breaks over two lines. |
| EnvSecrets.NameWithEquals | scripts/repository_secrets.py:168-184 | A name with an equals sign sets the name before it, and is itself never loaded from any file. |
| EnvSecrets.EqualsWitness | scripts/repository_secrets.py:168-184 | Setting A=B to x in an empty file makes A load as B=x. |
| EnvSecrets.DuplicateWitness | scripts/simple_setup_common.py:94-118 | Updating A to 3 in a file with A=1 and A=2 leaves A loading as 2. |
| EnvSecrets.RewriteAll | scripts/simple_setup_common.py:97-110 | The loop that pops pending updates computes the specified rewrite. |
| EnvSecrets.AppendAll | scripts/simple_setup_common.py:112-116 | The loop over the remaining updates appends the specified lines. |
| EnvSecrets.KeepOthers | scripts/repository_secrets.py:124-133 | The loop keeps exactly the lines of other keys. |
| EnvSecrets.Store.LoadAll | scripts/simple_setup_common.py:81-91 | The loop computes the map of the file's lines. |
| EnvSecrets.Store.Update | scripts/simple_setup_common.py:94-118 | The file becomes the specified text. |
| EnvSecrets.Store.Delete | scripts/repository_secrets.py:116-138 | The loaded map loses exactly the stripped keys; without keys or file nothing is written. |
| EnvSecrets.Store.WriteKeys | scripts/repository_secrets.py:109-113 | A missing file is first seeded from its example, if there is one; then the updates are applied. |
| EnvSecrets.Store.SetSecret | scripts/repository_secrets.py:168-184 | Blank names and empty values are refused untouched; otherwise the rendered value is written under the stripped name in the file, seeded from its example if it was missing; under the exact condition of `SecretRoundTrip` it loads back, and what is loaded decodes to the given value. |
| Registry.UpsertResult | scripts/registry_contract.py:45-76 | The result is sorted, holds the new entry once and exactly the entries that share neither key with it, and keeps names and paths distinct. |
| Registry.UpsertTwice | scripts/registry_contract.py:45-76 | Repeating an upsert changes nothing. |
| Registry.RunKeepsInvariant | scripts/registry_contract.py:45-76 | Any run of upserts gives a sorted registry with distinct names and distinct checkout paths that holds the last entry. |
| Registry.SurvivorsKeepOrder | scripts/registry_contract.py:45-76 | Surviving entries keep their relative order. |
| Registry.NamelessFirst | scripts/registry_contract.py:73 | In a sorted registry the entries without a name come first. |
| Registry.Store.Upsert | scripts/registry_contract.py:45-76 | Filter, append, sort and save compute the specified list. |
| Registry.Store.FindByPush | scripts/registry_contract.py:79-87 | The first entry for repository and branch, and none only if there is none. |
| Dns.PreviewConserves | scripts/manage_dns_records.py:415-435 | A preview exists exactly when the record it is about does; it conserves the records exactly when a deleted id is unique and later records with an updated id already equal the result. |
| Dns.PreviewKeepsOthers | scripts/manage_dns_records.py:415-435 | Every record a preview is not about keeps its value and its place among the others. |
| Dns.ProposalMeans | scripts/manage_dns_records.py:405-435 | Record by record: a created record comes last; every record with an updated id carries each field of the given record with its value, over the other fields of the first record with the id, and no further field; a deletion keeps exactly the records with other ids. |
| Dns.DiffMeans | scripts/manage_dns_records.py:405-435 | The diff reports the created record, the first record with the id before and after the update, or the first record deleted, and nothing else. |
| Dns.NamecheapUpdate | scripts/manage_dns_records.py:378-390 | The loop of the client's `update_record` raises exactly when no record has the id; otherwise each record with it carries all fields of the given record over its own old ones, and all others are as they were. |
| Dns.NamecheapDelete | scripts/manage_dns_records.py:392-397 | The client's `delete_record` raises exactly when no record has the id; otherwise exactly the others remain, as often and in the order they were. |
| Dns.MergedIsReplaced | scripts/manage_dns_records.py:378-397 | Merging every record with the id and replacing every one by the same target agree exactly when all of them merge to that target. |
| Dns.PreviewMatchesClient | scripts/manage_dns_records.py:378-435 | The update preview is what the client's own `update_record` would send exactly when all records with the id merge alike, so always with unique ids; the delete preview always is what `delete_record` would send. For Namecheap the program calls neither (`Zone.Run`). |
| Dns.Zone.Run | scripts/manage_dns_records.py:502-575 | A dry run sends nothing and shows the proposed change; for Namecheap the one list sent is the proposed one for every list of records, repeated ids included, and nothing is sent without a proposal. In the list sent an updated record carries every field of the given record over those of the first record with its id, a created one comes last, a deleted one is gone, and all others are as they were. Other providers get the single edit. |
| Dns.Zone.PreviewThenRun | scripts/manage_dns_records.py:512-569 | At Namecheap, a preview and then the change itself, both completed, send exactly the list that was shown. |
| Dns.RepeatedId | scripts/manage_dns_records.py:415-435 | With two records under one id, an update drops the second unless it equals the result, and a deletion drops it without reporting it. |
| LegacyCutover.Script.BusyPorts | scripts/legacy_setup.sh:197-206 | The loop reports exactly those of 80, 443 and 3000 that are in use. |
| LegacyCutover.Script.StopLegacyEdge | scripts/legacy_setup.sh:234-247 | On success every existing active unit was stopped and listed; a failing stop ends with a start issued for every stopped unit; a dry run touches none. |
| LegacyCutover.Script.RestartActiveLegacyEdge | scripts/legacy_setup.sh:249-258 | One start per listed unit, whatever the others' outcome; if all worked all are active. |
| LegacyCutover.Script.CheckGuards | scripts/legacy_setup.sh:306-331 | Lets the run go on exactly when Dokploy is absent, wanted, no foreign Swarm is active, and the cut-over is reviewed or the three ports are free; each refusal has exactly its own reason. |
| LegacyCutover.Script.FetchInstaller | scripts/legacy_setup.sh:344-350 | A failed download ends the run with nothing but the removal of the file. |
| LegacyCutover.Script.ClearEdge | scripts/legacy_setup.sh:352-361 | Goes on only with every active unit stopped and the ports seen free afterwards; otherwise every stopped unit has a start issued. |
| LegacyCutover.Script.RunInstaller | scripts/legacy_setup.sh:363-371 | A failing installer ends with a start issued for every stopped unit; only a failing removal of the file after success does not. |
| LegacyCutover.Script.WaitForDokployReady | scripts/legacy_setup.sh:282-291 | Sees Dokploy ready only when it is installed and 80, 443 and 3000 listen; gives up after exactly 30 looks, none of which saw that. |
| LegacyCutover.Script.AwaitDokploy | scripts/legacy_setup.sh:373-378 | Never ready ends with a start issued for every stopped unit. |
| LegacyCutover.Script.DisableLegacyEdge | scripts/legacy_setup.sh:260-268 | On success every existing unit is disabled, and none but existing units; the first failure ends the script. |
| LegacyCutover.Script.InstallDokploy | scripts/legacy_setup.sh:306-383 | For every outcome of every command: no unit is disabled before Dokploy was seen ready; every stopped unit is followed by a start or a ready Dokploy exactly unless the script died removing the installer's file; the installer runs only on ports seen free after the last stop; refusals, failed downloads, dry runs and runs without --replace-legacy issue no unit command; if all starts worked, every originally active unit is active again; every reason for dying was seen in the history. A finished installation ran the installer and saw Dokploy ready; the four refusals happen exactly on their conditions. |

## Left out

- SecurityModule.HardenSsh: validity and effect are those checked before the legacy drop-in is removed; that they survive the removal is assumed (`HardeningStable`), because sshd's own merging of drop-ins is not modelled.
- Convergence.Converges: nothing is claimed of the plan right after an apply that raised; what repeating it achieves is `Cli.ApplyTwice`, which leaves out a failed installer, because an installed Dokploy that never gets healthy blocks the next plan.
- DeployEngine.Engine.Deploy: `.conf.last-good` and the removed default site link are not claimed to be restored, because the code does not restore them; failure messages are reduced to their stage.
- DeployEngine.Engine.RunStages: aborts that are not an `Exception` are modelled at the DNS stage only, not a keyboard interrupt elsewhere.
- DeployRecord.RecordTracksRuns: each record update is one step; the unlocked webhook writer is not interleaved with a running update, and timestamps are left out.
- Maintenance.SnapshotRoundTrip: works on decoded JSON values; the JSON and TOML text codecs are left out, and parsing a configuration is a function of the environment.
- Registry.Store.Upsert: works on the keys that the registry reads; a `deploy_config` that is a list of pairs in a hand-edited file is treated as an error by the repair.
- EnvEdits.UpdateIdempotent: several updates at once with line breaks in them are not covered; a single one, whatever it holds, is covered by `SecretRepeats.SecretTwice`.
- EnvEdits.UpdateKeepsLines: for updates that can be read back; a value that breaks over lines adds lines of its own.
- Dns.Zone.Run: what a provider lists after a change is left open, because it is the provider's; requests may fail at any point.
- SecretText.QuotedReads: values are sequences of Unicode characters; lone surrogates, which JSON would also escape, are left out.
- Errors that Python raises by accident (a list as `runtime.mode` or `dns.provider`) count as validation errors.
- Lower-casing and digit tests cover ASCII only.
- Parsing the output of `ss`, `ufw status` and `docker`; they are read as sets and flags.
- Prompt wording, summaries, details, log events, file modes, lock files and atomic-rename mechanics.
- The webhook and automation steps after a successful deploy (scripts/deploy_engine.py:763-784), dependency detection and the rendering of nginx and systemd texts.
- Everything of the legacy script after the Dokploy installation, its preflight report and its argument parsing.
- The Porkbun client, Namecheap's parameter encoding, `relative_name`, `fqdn_name`, `merge_csv_values`: easy or pure I/O.
- The setup wizard, doctor, the local web interface, the status webapp, HMAC checking and the network clients.
