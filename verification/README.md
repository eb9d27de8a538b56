# Argo CD operator: a verified model of its stateful core

This project models, in Dafny, the parts of the Argo CD operator that behave as state machines, and proves
what they keep and what they achieve over every run. Most of the operator builds Kubernetes objects field by
field; the parts below instead keep several stores in step across failing API calls, timers, restarts and
edits.

The API server is a store that the operator changes by calls. Everything the operator does not control is
a field of `Platform.Env`, indexed by the number of calls made so far: whether a call is carried out and
acknowledged, carried out without acknowledgement, or rejected; the clock; the order of listings; pattern
matching; duration parsing. A theorem about every `Env` is a theorem about every pattern of failures, every
passage of time and every listing order.

Each component comes as a pure state transformer (one function per Go function), lemmas about it, and,
where the source updates objects in place, a class whose methods are proved to do exactly what the
transformer says.

| files | component |
|---|---|
| `Platform`, `Text`, `Rbac` | surroundings, comma lists and shortened names, roles and bindings |
| `LocalUser*` | the local-user token protocol: user secrets, token entries in `argocd-secret`, renewal timers |
| `SourceNamespace*` | ownership of source namespaces by labels, for ApplicationSet and notifications |
| `BindingConvergence` | how many passes each binding reconciler needs |
| `ImageUpdater*` | the RBAC of the Image Updater in its three watch modes and when disabled |
| `Dex*` | renewal timing of the Dex token, and the older non-expiring token |
| `ConfigMap*` | building and converging `argocd-cm`, owner references, the mask list, rollouts of a changed ConfigMap |
| `Gauges` | the gauges of active instances |
| `Conversion` | v1alpha1 and v1beta1: single sign-on folding and list conversions |

## Premises

- `Platform.Sane` and `Platform.ListsOnce`: time never goes back, listings return exactly what is stored.
- Namespace names hold no '/', as Kubernetes requires (`GoodEvents`).
- `DexTokens.Good` and `DexTokenTiming.LivesLongEnough`: an instant written in the form of section 5.6 of
  RFC 3339 is read back to the second, and issued tokens live at least for the threshold.
- `ImageUpdater.Distinct` and `ImageUpdater.Consistent`: the per-namespace names are this instance's alone.
  `NamesAreDistinct`, `ShortNamesAreDistinct` and `FreshStartIsConsistent` show when they hold.
- A timer calls back at most once, and no earlier than its deadline (`LocalUserRuns.CanFire`).

## What the proofs show to be false of the code

Where a property that one would expect fails, the code is modelled as it is, a lemma shows the failure, and
another states exactly when the property holds.

- A token entry that is not written after the user secret was leaves a secret and an older entry that name
  different tokens, and later passes do not notice (`RejectedEntryWriteTears`, `TornIssueIsNotRepaired`). An
  issue tears exactly as the answers to three of its calls say (`IssueTearsIff`), and over every run secret
  and entry agree exactly when those answers to the issue of the stored token were good (`TokensAgreeIff`).
- A lifetime changed to a zero spelled other than "" or "0" leaves a running timer running: a user whose tokens
  do not expire has a timer after a pass exactly when it had one before and the settings do not call for
  stopping it (`ZeroLifetimeTimer`).
- A timer that has fired stays in the timer map, and later passes take it for a running one. After a renewal
  whose writes were not all acknowledged the user has a new token and no timer that is still to fire: in every
  run, as long as the new token runs, such a timer is there exactly when its issue was completed
  (`RenewedIsArmedIff`, with `RejectedRenewal` as a failing run). The same holds after a pass that comes at
  exactly the expiry and so keeps the token (`UnrenewedIsUnarmed`).
- A dotted user, and the user "enabled", are given apiKey by extraConfig without being seen as declared there;
  the scan is exact for all other names (`LegacyUsersExact`, with `DottedUserEscapesTheScan` as witness).
- Deleting an instance right after an operator restart leaves its namespace labels behind
  (`DeletionAfterRestartForgets`); a deletion clears a label exactly when the shared set holds the namespace
  (`DeletionClearsExactly`).
- A Dex pass that decides no later than the renewal deadline but schedules no earlier than it keeps the old
  delay, so the next wake-up may come after the token has expired (`GapInScheduling`); the wake-up falls on
  the deadline exactly when scheduling comes strictly before it (`WakesAtDeadline`).
- Removing legacy Dex token secrets can leave a reference to a deleted secret in the service account. Then the
  operator itself never hands out a legacy token again (`StuckForever`), until someone else, such as the token
  controller of Kubernetes, drops the reference. A removal leads there exactly when the first token reference
  among the kept ones is not to a secret that survives (`RemoveGetsStuckExactly`), be it because the account
  was not updated or because a delete was carried out without acknowledgement
  (`UnacknowledgedDeleteGetsStuck`).
- An existing `argocd-cm` whose data map is nil cannot be brought in line while Dex is used with a non-empty
  configuration (`BlockedFails`, `OnePass`).
- A change of dex.config or exec.enabled that is stored is rolled out by the pass that stores it or never; the
  answers to that pass's calls and the presence of the deployment decide (`DexRolloutNowOrNever`,
  `TerminalRolloutNowOrNever`).
- A deletion event for an instance without a phase that was never counted makes the gauges drift
  (`DeletionBeforeFirstPhase`, `GaugesRightIff`).
- One deprecated Keycloak field wipes out the other three of `.spec.sso.keycloak` (`KeycloakKeptIff`).
- Conversion loses data: to v1alpha1 and back, every field that v1alpha1 lacks, in each section and at the top,
  and installation id, image pull policy, rollouts UI and network policy, which both versions have
  (`BetaRoundTripIff`); to v1beta1 and back, the same four and the deprecated fields (`AlphaRoundTripIff`).
- A role that has the Image Updater's per-namespace name but not its label is never pruned
  (`UntaggedRoleIsNeverPruned`).

One comment in the source disagrees with its code: the one at `controllers/argocd/dex.go:91-92` says that
enabling token renewal falls back to the legacy token. The model follows the code.

## Model

| member | source | states |
|---|---|---|
| `LocalUserHistory.EveryRunConverges` | controllers/argocd/localusers.go:152-357 | After every run of edits, passes, timer callbacks, cleanups and restarts with failures at any call, a pass that reports no error settles every declared user that extraConfig does not declare (secret, entry, normalised lifetime and autoRenew, timer), leaves undeclared users nothing, and replaces every token that had run out, restarting its timer. |
| `LocalUserSuccess.ErrorFreePassSucceeds` | controllers/argocd/localusers.go:72-110 | After every run, a pass whose calls all succeed reports no error, provided argocd-secret has a signing key and the declared lifetimes parse. |
| `LocalUserPass.PassConverges` | controllers/argocd/localusers.go:72-110 | The same convergence from any state that satisfies the invariant, and users declared by extraConfig are left alone. |
| `LocalUserPass.PassKeepsWorld` | controllers/argocd/localusers.go:72-110 | Whatever calls fail, a pass keeps the invariant on secrets, entries and timers and touches no timer of another namespace. |
| `LocalUserPass.SettledEntryIsExact` | controllers/argocd/localusers.go:556-588 | For a settled user with a plain name, the token entry is there exactly when the user is enabled and has apiKey. |
| `LocalUserContent.DeclaredUserGetsItsToken` | controllers/argocd/localusers.go:152-357 | After every run, a pass that reports no error leaves each user that extraConfig does not declare exactly what its fields ask for: a token of the trimmed lifetime with its claims, texts and entry, or neither secret nor entry; and a timer or none. |
| `LocalUserContent.ExtraConfigKeepsEntries` | controllers/argocd/localusers.go:556-588 | In every run, whatever calls fail, a pass leaves the token entry of a user to whom extraConfig gives apiKey as it is, unless that user escapes the scan and wants a token. |
| `LocalUserTimers.ZeroLifetimeTimer` | controllers/argocd/localusers.go:169-171 | After every run, a pass that reports no error leaves a user whose tokens do not expire with a timer exactly when there was one before and the settings do not call for stopping it, and then the same one. |
| `LocalUserHistory.NoOrphanEntry` | controllers/argocd/localusers.go:556-588 | In every run, a token entry of a user whom extraConfig never gave apiKey has its user secret beside it, so cleanup finds it. |
| `LocalUserHistory.EveryRunSettles` | controllers/argocd/localusers.go:152-357 | After a pass without error, a second one writes nothing and leaves the timer map alone, unless an auto-renewed token runs out meanwhile. |
| `LocalUserQuiet.QuietPass` | controllers/argocd/localusers.go:253-357 | From any settled state a pass writes nothing, whatever the API server answers. |
| `LocalUserHistory.TokensAgreeUnlessTorn` | controllers/argocd/localusers.go:391-465 | In every run, issued token, user secret and argocd-secret agree on id and times exactly when the latest issue was not torn; the secret holds the expiry that its own lifetime and the time of issue give, and the claims of the token are those of the secret (not before equals issued at); after a completed issue the timer is due on time. |
| `LocalUserAnswers.TokensAgreeIff` | controllers/argocd/localusers.go:426-465 | In every run, user secret and argocd-secret agree exactly when the issue of the stored token was acknowledged in its write of the secret and its read of argocd-secret and not rejected in its write of the entry; if that was acknowledged too, a running timer is due no earlier than the expiry, and no later than the expiry plus the time between its two clock readings: those of the issue, to the second, or, re-armed from the stored expiry, its own. |
| `LocalUserAnswers.IssueTearsIff` | controllers/argocd/localusers.go:426-465 | An issue writes the secret without the entry exactly when its four preparatory calls are answered, there is a signing key, the write of the secret is not rejected, and that write or the read of argocd-secret is not acknowledged or the write of the entry is rejected. |
| `LocalUserAnswers.IssueByAnswers` | controllers/argocd/localusers.go:360-468 | What an issue leaves behind, for every pattern of answers: nothing, or a secret with the new id, recorded as torn, unconfirmed or completed. |
| `LocalUserAnswers.IssueContent` | controllers/argocd/localusers.go:360-468 | Field by field, what an issue stores: signing key, claims, expiry, lifetime and autoRenew text, and the entry beside it unless it tears; no other entry changes. |
| `LocalUserRenewal.RenewedIsArmedIff` | controllers/argocd/localusers.go:336-354 | In every run, after a renewal that began when the user's timer had fired, and after any later passes, callbacks and edits elsewhere, as long as the new token is stored and runs, the user has a timer still to fire and due on time (no earlier than the stored expiry, and later only by the time between its two clock readings, to the second) exactly when the issue of that token was completed. |
| `LocalUserRenewal.CompletedIsArmed` | controllers/argocd/localusers.go:472-505 | In every run, a user with a timer and a token whose issue was completed has a timer still to fire and due on time, while the token runs. |
| `LocalUserRenewal.TimerStaysWithToken` | controllers/argocd/localusers.go:253-357 | Over any run without edits, cleanup or restart for the namespace, a token that is still stored at the end was stored all along and kept its timer. |
| `LocalUserRenewal.RejectedRenewal` | controllers/argocd/localusers.go:426-465 | A renewal whose entry write is rejected fails with a new token in the secret, and its issue is torn. |
| `LocalUserQuiet.RejectedEntryWriteTears` | controllers/argocd/localusers.go:426-465 | A rejected entry write over an older entry leaves secret and entry with different token ids. |
| `LocalUserQuiet.TornIssueIsNotRepaired` | controllers/argocd/localusers.go:294-299 | Passes keep such a pair, because only the presence of the entry is checked. |
| `LocalUserHistory.LiveTimersAreTheMap` | controllers/argocd/localusers.go:472-505 | After every run, a timer is un-stopped exactly when it is the value under its own key in the timer map. |
| `LocalUserHistory.CleanupStopsExactly` | controllers/argocd/localusers.go:625-639 | Namespace cleanup stops exactly the timers of that namespace and removes exactly their keys. |
| `LocalUserHistory.StoppedTimerIsDead` | controllers/argocd/localusers.go:480-505 | Whatever happens after namespace cleanup, a callback of one of its timers changes nothing. |
| `LocalUserHistory.FiredTimerReconciles` | controllers/argocd/localusers.go:480-505 | An un-stopped timer that fires, once and no earlier than its deadline, leads to a pass over its own namespace. |
| `LocalUserNames.LegacyUsersExact` | controllers/argocd/localusers.go:610-623 | The key scan finds a user exactly when its account key is in extraConfig, its name has no dot, and it is not called "enabled". |
| `LocalUserController.LocalUsersInfo.Stop` | controllers/argocd/localusers.go:132-148 | Stops and removes the timer under a key and no other, keeping the heap of timers valid. |
| `LocalUserController.LocalUsersInfo.Start` | controllers/argocd/localusers.go:472-505 | Replaces the timer under a key by a fresh un-stopped one. |
| `LocalUserController.LocalUsersInfo.CleanupNamespace` | controllers/argocd/localusers.go:625-639 | The loop over the timer map stops and removes exactly the keys with the namespace's prefix. |
| `LocalUserController.Reconciler.Issue` | controllers/argocd/localusers.go:360-468 | Issues a token as the specification says: secret first, then entry, with every failure path. |
| `LocalUserController.Reconciler.ReconcileLocalUser` | controllers/argocd/localusers.go:152-357 | Refines the specification of one user. |
| `LocalUserController.Reconciler.CleanupLocalUser` | controllers/argocd/localusers.go:556-588 | Refines the specification of cleaning up one user: entry before secret. |
| `LocalUserController.Reconciler.CleanupLocalUsers` | controllers/argocd/localusers.go:509-543 | The loop over listed secrets refines the specification. |
| `LocalUserController.Reconciler.LocalUsersInExtraConfig` | controllers/argocd/localusers.go:610-623 | The key scan returns exactly the declared users. |
| `LocalUserController.Reconciler.ReconcileLocalUsers` | controllers/argocd/localusers.go:72-110 | A whole pass on the heap is the pass of the specification, timers included. |
| `SourceNamespaceLoops.RestoreKeeps` | controllers/argocd/argocd_controller.go:401-438 | Restoring adds a tracking label only where an operator-made role of the instance with application-scoped rules calls for it, naming the instance, and everywhere where one does if it reports success, as it does with error-free calls. |
| `SourceNamespacePasses.PassNoHandover` | controllers/argocd/applicationset.go:746-877 | Whatever calls fail, a pass takes no tracking label from one owner to another, and takes one away only after role, binding and configuration of the instance. |
| `SourceNamespacePasses.PruneSparesOthers` | controllers/argocd/applicationset.go:1059-1131 | Pruning leaves alone every namespace whose resolved owner is not the pruning instance, and every desired one. |
| `SourceNamespacePasses.CreateSparesUndesired` | controllers/argocd/applicationset.go:765-825 | The create step works in no namespace but the desired ones. |
| `SourceNamespaceLoops.CreateKeeps` | controllers/argocd/notifications.go:679-804 | The create step of either feature works in exactly the eligible namespaces. With error-free calls each without another manager gets label, role and binding (and configuration); each with one keeps what it has, or is cleared if it was labelled for another instance. |
| `SourceNamespaceLoops.PruneKeeps` | controllers/argocd/notifications.go:919-987 | Pruning only takes labels away, each after all else of the feature, whatever calls fail, and with error-free calls clears every managed namespace of the instance that is not to be kept: label, role, binding, configuration and place in the shared set. |
| `SourceNamespacePasses.FeaturesDoNotInterfere` | controllers/argocd/notifications.go:679-804 | Creating and pruning for one feature leaves the labels, roles, bindings, configurations and shared set of the other as they were. |
| `SourceNamespacePasses.DesiredIsStable` | controllers/argocd/applicationset.go:1097-1127 | The prune test by pattern agrees with membership in the expanded desired set, at every stage of a pass. |
| `SourceNamespacePasses.OwnershipIsExact` | controllers/argocd/applicationset.go:793-825 | After an error-free pass the namespaces labelled for the instance are exactly the desired ones it owned after restoration, and the desired ones then unlabelled with no non-empty managed-by label. |
| `SourceNamespacePasses.NoStrayRole` | controllers/argocd/argocd_controller.go:401-504 | After an error-free pass every operator-made ApplicationSet role of the instance outside its namespace sits in a desired namespace or in one labelled for another instance, even if labels had been stripped by hand. |
| `SourceNamespaceContent.DesiredHoldsResources` | controllers/argocd/applicationset.go:841-864 | After any number of error-free passes a desired namespace without another manager holds the feature's role with exactly the given rules and, from a start without a binding or with the right RoleRef, or after two passes, the binding of that role to the service account of the feature's controller in the instance's namespace; labels are those of the instance or as they were. |
| `SourceNamespaceContent.SuccessfulPassFurnishes` | controllers/argocd/applicationset.go:826-877 | A pass that reports success, whatever became of the calls whose failure is only logged, leaves the same role, binding and configuration in every such namespace. |
| `SourceNamespaceContent.SuccessfulPassHasListed` | controllers/argocd/argocd_controller.go:302-318 | A pass that reports success has had its listings of roles and of namespaces answered. |
| `SourceNamespaceContent.ResourcesAreAllTried` | controllers/argocd/notifications.go:751-802 | Role, binding and configuration are each read and, if missing or different, written, whatever became of those before; any failure is reported and none undoes the others. |
| `SourceNamespaceContent.LabelFailureIsOnlyLogged` | controllers/argocd/notifications.go:731-749 | Only a failed second read of the namespace ends the create loop; a label that cannot be written is passed over. |
| `SourceNamespaceContent.ManagedElsewhereIsYielded` | controllers/argocd/notifications.go:716-728 | After an error-free pass a desired namespace with a non-empty managed-by label holds nothing of the feature if it was labelled for another instance, and what it held otherwise. |
| `SourceNamespaceContent.UndesiredIsCleared` | controllers/argocd/applicationset.go:1133-1182 | After an error-free pass an undesired namespace labelled for the instance holds no label, role, binding or configuration of the feature and is out of the shared set. |
| `SourceNamespaceContent.PruneGoesByOwner` | controllers/argocd/notifications.go:919-987 | An error-free prune step clears exactly the undesired namespaces of the shared set whose own label names the instance, or without it the ApplicationSet label (for notifications), or without both the managed-by label. |
| `SourceNamespaceContent.PruneFailsExactly` | controllers/argocd/applicationset.go:1059-1131 | Pruning reports success exactly when the reads of each of its turns are answered; a cleanup that fails is not reported. |
| `SourceNamespaceRuns.RunsAreCovered` | controllers/argocd/applicationset.go:1186-1205 | In every error-free run of any number of instances, the shared sets cover every namespace labelled for an instance that has had a pass. |
| `SourceNamespaceRuns.DeletionClearsExactly` | controllers/argocd/applicationset.go:1059-1131 | Pruning for a deleted instance clears its label, and with it role, binding and configuration, exactly when the shared set holds the namespace. |
| `SourceNamespaceRuns.DeletionClearsAll` | controllers/argocd/argocd_controller.go:248-283 | After an error-free run, deleting an instance that has had a pass leaves no namespace labelled for it, and nothing of the feature in those that were. |
| `SourceNamespaceRuns.DeletionAfterRestartForgets` | controllers/argocd/argocd_controller.go:248-283 | Deleting an instance after a restart and before its next pass leaves all its labels. |
| `SourceNamespaceCommand.CommandListIsDesired` | controllers/argocd/applicationset.go:80-103 | The command-line namespace list is strictly ascending and holds exactly the desired set. |
| `SourceNamespaceCommand.OrderedListIsUnique` | controllers/argocd/applicationset.go:1290-1312 | There is only one strictly ascending list with given members. |
| `SourceNamespaceController.Reconciler.RestoreTrackingLabels` | controllers/argocd/argocd_controller.go:401-438 | The restore loop refines the specification: it goes on after an error and reports it. |
| `SourceNamespaceController.Reconciler.CheckRules` | controllers/argocd/argocd_controller.go:456-477 | The nested loops find exactly the rule lists with application-scoped rules. |
| `SourceNamespaceController.Reconciler.AddMissingLabels` | controllers/argocd/argocd_controller.go:492-504 | Existing labels keep their values and missing ones are added, in any order. |
| `SourceNamespaceController.Reconciler.SetManagedNamespaces` | controllers/argocd/applicationset.go:1186-1205 | The shared set gains exactly the namespaces labelled for the instance. |
| `SourceNamespaceController.Reconciler.CleanupUnmanaged` | controllers/argocd/applicationset.go:1133-1182 | Role, binding and configuration go before the label, and a failure stops the rest. |
| `SourceNamespaceController.Reconciler.ReconcileRole` | controllers/argocd/applicationset.go:1208-1243 | Creates the role or replaces its rules, as specified. |
| `SourceNamespaceController.Reconciler.ReconcileApplicationSetNamespaces` | controllers/argocd/applicationset.go:746-877 | The create loop refines the specification. |
| `SourceNamespaceController.Reconciler.ReconcileNotificationsNamespaces` | controllers/argocd/notifications.go:679-804 | The create loop for notifications refines the specification. |
| `SourceNamespaceController.Reconciler.RemoveUnmanaged` | controllers/argocd/applicationset.go:1059-1131 | The prune loop refines the specification. |
| `SourceNamespaceController.Reconciler.ApplicationSetNamespacesArgument` | controllers/argocd/applicationset.go:80-103 | Computes the namespace list that `CommandListIsDesired` is about. |
| `SourceNamespaceController.Reconciler.ReconcileSourceNamespaces` | controllers/argocd/argocd_controller.go:302-318 | A whole pass on the object is the pass of the specification. |
| `BindingConvergence.ConvergesExactly` | controllers/argocd/image_updater.go:791-858 | From any start and with error-free calls the desired RoleRef and subjects are there after k passes exactly when k is at least the stated number. |
| `BindingConvergence.ConvergesWithin` | controllers/argocd/applicationset.go:673-742 | That number is at most two for the Image Updater and source-namespace bindings, three for the ApplicationSet cluster binding, one for the notifications cluster binding. |
| `BindingConvergence.ReachedIsQuiet` | controllers/argocd/notifications.go:409-478 | Once reached, any number of passes writes nothing, whatever the answers. |
| `BindingConvergence.Needed` | controllers/argocd/applicationset.go:1246-1286 | The number of passes needed from a given start, with its bound per reconciler. |
| `BindingConvergence.OnceLabels` | controllers/argocd/applicationset.go:1246-1286 | Whatever the answers, a pass leaves nothing, the desired object, or the old labels; and with error-free calls it creates a missing binding as desired. |
| `BindingConvergence.NotAllowedGoesExactly` | controllers/argocd/applicationset.go:673-742 | With error-free calls a reconciler that is disabled or not allowed deletes the binding, except that a cluster-wide one of the Image Updater or ApplicationSet spares a binding labelled for another instance. |
| `BindingConvergence.NothingToBind` | controllers/argocd/notifications.go:409-478 | Without a cluster role the notifications reconciler creates no binding. |
| `BindingConvergence.FailedReadChangesNothing` | controllers/argocd/image_updater.go:791-858 | A binding reconciler that cannot read its object changes nothing and reports an error. |
| `BindingConvergence.RolesInOnePass` | controllers/argocd/applicationset.go:1208-1243 | The role reconcilers reach the desired rules in one pass that reports success, keeping labels, or delete, sparing a cluster role labelled for another instance. |
| `ImageUpdaterPasses.EveryRunIsExact` | controllers/argocd/image_updater.go:46-311 | Over every history of enabling, disabling and watch-list edits with failures at any call, a last pass that succeeds leaves exactly its mode's roles, bindings and service account, and everything under other names is untouched. |
| `ImageUpdaterPasses.SuccessfulPassIsExact` | controllers/argocd/image_updater.go:46-203 | One pass keeps the invariant and touches only the instance's names whatever the answers, and is exact when it succeeds. |
| `ImageUpdaterContent.ContentsAreRight` | controllers/argocd/image_updater.go:360-410 | Over every history whose last pass succeeds, field by field: rules, RoleRef and subject of the roles and bindings in each watched namespace, cluster-wide with "*", and in the instance's own namespace; and the service account. |
| `ImageUpdaterContent.ClusterObjectsGo` | controllers/argocd/image_updater.go:496-523 | From a start whose cluster objects are the instance's own, a history whose last pass succeeds and does not ask for "*" leaves none. |
| `ImageUpdaterContent.RunLabels` | controllers/argocd/image_updater.go:705-858 | Over every history, with any answers, what is created carries the labels of the instance and everything else keeps its labels. |
| `ImageUpdaterContent.FirstVariableCounts` | controllers/argocd/image_updater.go:62-68 | The first variable of the name gives the watch list, trimmed. |
| `ImageUpdaterContent.NoVariable` | controllers/argocd/image_updater.go:62-68 | Without such a variable the list is empty. |
| `ImageUpdaterContent.WatchedIs` | controllers/argocd/image_updater.go:136-152 | The watched namespaces are exactly the trimmed non-empty entries, when the Image Updater is enabled and the value is not "*". |
| `ImageUpdaterQuiet.ExactPassIsQuiet` | controllers/argocd/image_updater.go:705-858 | Once exact, a pass with the same settings writes no RBAC object, whatever the answers. |
| `ImageUpdaterQuiet.ErrorFreePassSucceeds` | controllers/argocd/image_updater.go:79-82 | A pass whose calls all succeed succeeds, exactly unless "*" is asked for outside cluster scope. |
| `ImageUpdaterSteps.PruneIsExact` | controllers/argocd/image_updater.go:415-458 | Pruning deletes nothing but labelled objects outside the desired namespaces and, when it succeeds, all of those. |
| `ImageUpdaterSteps.DropClusterEffect` | controllers/argocd/image_updater.go:496-523 | Leaves no cluster object owned by the instance when it succeeds and touches nothing else. |
| `ImageUpdaterPremises.NamesAreDistinct` | controllers/argocd/rolebinding.go:69-72 | For an instance name without '_', the per-namespace names clash with the component's own exactly when the binding's name is cut, the cut leaves the beginning of the component's, and the hashes are the same. |
| `ImageUpdaterPremises.UntaggedRoleIsNeverPruned` | controllers/argocd/image_updater.go:415-440 | Over every history that does not watch its namespace, with any answers, a role of the per-namespace name without the label stays exactly as it is. |
| `ImageUpdaterController.Reconciler.FindWatchNamespaces` | controllers/argocd/image_updater.go:62-68 | The loop finds the first variable of the name, trimmed. |
| `ImageUpdaterController.Reconciler.ReconcileListed` | controllers/argocd/image_updater.go:136-152 | The loop over the split watch list skips blanks, stops at the first failure and grants each namespace. |
| `ImageUpdaterController.Reconciler.CollectDesired` | controllers/argocd/image_updater.go:156-163 | The desired set is exactly the trimmed non-empty entries. |
| `ImageUpdaterController.Reconciler.PruneNamespaces` | controllers/argocd/image_updater.go:415-458 | The two prune loops refine the specification. |
| `ImageUpdaterController.Reconciler.ReconcileRole` | controllers/argocd/image_updater.go:705-770 | Refines the role helper, ownership check included. |
| `ImageUpdaterController.Reconciler.ReconcileBinding` | controllers/argocd/image_updater.go:791-858 | Refines the binding helper, delete without re-creation included. |
| `ImageUpdaterController.Reconciler.Reconcile` | controllers/argocd/image_updater.go:39-44 | A whole pass on the object is the pass of the specification. |
| `Text.JoinSplit` | controllers/argocd/image_updater.go:136-140 | Splitting at commas loses nothing. |
| `Text.SplitJoin` | controllers/argocd/image_updater.go:136-140 | Splitting a joined list of comma-free parts gives the parts back. |
| `Text.TrimIsExact` | controllers/argocd/image_updater.go:62-68 | Trimming gives the part of the text between its first and last character that is no white space, and nothing when there is none. |
| `Text.NameWithSuffixShort` | controllers/argoutil/resource.go:139-160 | A short name is not cut. |
| `DexTokenTiming.HandedOutIsFresh` | controllers/argocd/dex.go:93-182 | Over every run, a token handed out was issued by the API and has at least 1188 seconds left when the pass decides, if issued lifetimes reach that. |
| `DexTokenTiming.HandsOutIff` | controllers/argocd/dex.go:93-182 | A token is handed out exactly when the account and the secret are read and either the stored token has not come to its deadline or a new one is issued and written; then it is the stored one. |
| `DexTokenTiming.TokenIsStoredIff` | controllers/argocd/dex.go:133-182 | When a new token is stored, and which, for every pattern of answers. |
| `DexTokenTiming.RenewsExactlyAfterDeadline` | controllers/argocd/dex.go:58-77 | A stored token is reused exactly when it is usable and the decision falls no later than 1188 seconds before its stored expiry. |
| `DexTokenTiming.WakesAtDeadline` | controllers/argocd/dex.go:116-131 | A successful pass wakes the operator up exactly at the deadline of the token it handed out, if and only if it schedules strictly before it. |
| `DexTokenTiming.SameWakeUp` | controllers/argocd/dex.go:116-131 | Passes that reuse the token and schedule before the deadline all give the same absolute wake-up. |
| `DexTokenTiming.LatePassReplaces` | controllers/argocd/dex.go:133-182 | A pass that decides strictly after the deadline and whose calls succeed replaces and stores the token with its expiry. |
| `DexTokenTiming.ReplacedInTime` | controllers/argocd/dex.go:133-182 | When such a pass writes before the old token expires, the stored token is alive at every moment of the pass: the old one until the write, the new one from then on. |
| `DexTokenTiming.NextPassFindsTokenAlive` | controllers/argocd/argocd_controller.go:377-389 | A pass that follows a wake-up set before the deadline by less than the threshold finds the token unexpired, whatever happens in other namespaces. |
| `DexTokenRuns.TokenNeverLapses` | controllers/argocd/argocd_controller.go:377-389 | After every run, a chain of successful passes of any length, each scheduling before its deadline and followed by a pass that ends less than the threshold after the wake-up it set, never lets the stored token lapse, whatever happens in other namespaces. |
| `DexTokenRuns.PassWithoutRenewal` | controllers/argocd/secret.go:943-958 | With renewal off a successful pass leaves neither secret nor delay, with renewal on but Dex unused no delay; only with both is a token handed out. |
| `DexTokenRuns.PassSucceedsIff` | controllers/argocd/secret.go:943-958 | The answers on which a pass succeeds, in each of these settings. |
| `DexTokenRuns.StaysOff` | controllers/argocd/argocd_controller.go:377-389 | After such a pass neither comes back in any later run that does not turn renewal on, whatever calls fail. |
| `DexTokenTiming.GapInScheduling` | controllers/argocd/dex.go:126-128 | A pass that decides no later than the deadline and schedules no earlier keeps the old delay; a delay over the threshold then means a wake-up after expiry. |
| `DexTokenTiming.RunIsHonest` | controllers/argocd/dex.go:146-170 | In every run a stored secret holds a token the API issued, with that token's own expiry, and stored delays are positive. |
| `DexController.TokenReconciler.GetOAuthClientSecret` | controllers/argocd/dex.go:93-182 | Refines the specification of handing out a token, clock reading by clock reading. |
| `DexController.TokenReconciler.Reconcile` | controllers/argocd/argocd_controller.go:377-389 | Refines the token's share of a pass and the requeue at its end. |
| `DexLegacy.RemoveIsExact` | controllers/argocd/dex.go:255-304 | A successful removal deletes exactly the legacy secrets of the Dex service account and drops exactly the references to them, in order. |
| `DexLegacy.HandoutExactly` | controllers/argocd/dex.go:187-250 | With error-free calls a legacy token is handed out exactly when the service account exists and its token reference, if any, leads to a secret. |
| `DexLegacy.HandedOutToken` | controllers/argocd/dex.go:187-250 | For every state and every pattern of answers: which token is handed out, the one in the secret under the first token reference, or the one generated for the secret that this call creates and refers to. |
| `DexLegacy.HandoutEffect` | controllers/argocd/dex.go:187-250 | What a handout changes in secrets and references, for every pattern of answers. |
| `DexLegacy.HandoutsAgree` | controllers/argocd/dex.go:187-250 | With error-free calls, two handouts in a row give the same token. |
| `DexLegacy.StuckForever` | controllers/argocd/dex.go:187-250 | A token reference that leads nowhere stays, over every later sequence of the operator's removals and handouts with any answers, and no token is handed out. |
| `DexLegacy.RemoveIs` | controllers/argocd/dex.go:255-304 | A removal for every state and every pattern of answers: which secrets go and which references stay. |
| `DexLegacy.RemoveSucceedsIff` | controllers/argocd/dex.go:255-304 | When a removal succeeds, and that the service account is updated exactly if it refers to a secret that was taken for deleted. |
| `DexLegacy.RemoveGetsStuckExactly` | controllers/argocd/dex.go:255-304 | For every state and every pattern of answers, a removal whose list succeeds leaves the account stuck exactly when the first token reference among the kept ones is not to a surviving secret. |
| `DexLegacy.HealthyGetsStuckIff` | controllers/argocd/dex.go:269-303 | A healthy account gets stuck exactly when it was not updated and the delete of the token in use was carried out, or it was updated and the first token reference left names a secret whose delete was carried out but not acknowledged. |
| `DexLegacy.AcknowledgedDeletesGetStuckIff` | controllers/argocd/dex.go:282-303 | When all deletes were acknowledged and took the token in use, that happens exactly when the service account is not read or its update is rejected. |
| `DexController.LegacyReconciler.RemoveLegacySecrets` | controllers/argocd/dex.go:255-304 | The delete loop and the reference filter refine the specification. |
| `DexController.LegacyReconciler.GetOAuthClientSecret` | controllers/argocd/dex.go:187-250 | Refines the legacy handout. |
| `ConfigMapConvergence.OnePass` | controllers/argocd/configmap.go:539-611 | A pass whose calls all succeed succeeds exactly when the data can be built and the ConfigMap is not blocked, and then settles everything except a ConfigMap just created with another dex.config from extraConfig. |
| `ConfigMapConvergence.TwoPassesSettle` | controllers/argocd/configmap.go:539-611 | From any start, two such passes settle everything. |
| `ConfigMapConvergence.SettledIsQuiet` | controllers/argocd/configmap.go:545-606 | Once settled, a pass writes nothing, whatever the answers. |
| `ConfigMapConvergence.BlockedFails` | controllers/argocd/dex.go:307-325 | A ConfigMap with nil data under Dex, or controlled by another owner, is not brought in line by any pass. |
| `ConfigMapRollouts.DexRolloutNowOrNever` | controllers/argocd/dex.go:321-341 | A pass that finds another dex.config stores Dex's own and rolls the deployment out exactly as the answers to its first four calls and the presence of the deployment say; unstored, the change is pending; stored, it is rolled out by this pass or, over all later passes under the same spec, never. |
| `ConfigMapRollouts.TerminalRolloutNowOrNever` | controllers/argocd/configmap.go:545-606 | The same for exec.enabled and the server deployment, with the Dex stage, the owner repair and the answers to the write, the look-up and the update of the deployment as the condition. |
| `ConfigMapConvergence.ExtraConfigWins` | controllers/argocd/configmap.go:507-537 | Every extraConfig key has its value in the final data, except dex.config while Dex is used and the mask key on OpenShift, whose values are given. |
| `ConfigMapContent.GeneratedByKey` | controllers/argocd/configmap.go:380-482 | Where the operator's value under each key comes from, in order of precedence: banner, Dex, customizations, OIDC, the last kustomize version of the name, installation id, first keys. |
| `ConfigMapContent.FinalByKey` | controllers/argocd/configmap.go:507-537 | The final value under each key that is no account's, in terms of extraConfig and the generated value. |
| `ConfigMapContent.FinalIff` | controllers/argocd/configmap.go:405-450 | When the data can be built. |
| `ConfigMapContent.AccountTexts` | controllers/argocd/configmap.go:483-505 | The account and enabled texts of a user that extraConfig does not mention, by its fields. |
| `ConfigMapContent.CreatedIsControlled` | controllers/argocd/configmap.go:539-611 | A ConfigMap that is created is controlled by the ArgoCD resource alone. |
| `ConfigMapConvergence.AccountLines` | controllers/argocd/configmap.go:483-505 | A declared user that extraConfig does not mention gets exactly its capabilities and its enabled flag. |
| `ConfigMapConvergence.FinalAlwaysHas` | controllers/argocd/configmap.go:514-537 | The final data have the fine-grained inheritance key and, on OpenShift, the token annotation in the mask list. |
| `ConfigMapConvergence.MaskProperties` | controllers/argocd/configmap.go:521-537 | The mask list holds the annotation as a trimmed entry, keeps the earlier text as a prefix, adds the annotation last if it was missing and nothing else, and is stable. |
| `ConfigMapConvergence.RepairIsExact` | controllers/argocd/configmap.go:704-736 | Repair fails exactly when no reference has the kind and another object controls the ConfigMap; otherwise the first reference of the kind, or a new controlling one, names the resource, all others are untouched, and a second repair changes nothing. |
| `ConfigMapController.Copy.RepairOwners` | controllers/argocd/configmap.go:704-736 | The in-place repair loop is the repair of the specification. |
| `ConfigMapController.Reconciler.BuildData` | controllers/argocd/configmap.go:380-537 | Filling the data step by step gives the specified data. |
| `ConfigMapController.Reconciler.AddToMask` | controllers/argocd/configmap.go:521-537 | The search loop computes the mask list. |
| `ConfigMapController.Reconciler.ReconcileDexConfiguration` | controllers/argocd/dex.go:307-344 | Refines the Dex update on the operator's copy and on the stored ConfigMap. |
| `ConfigMapController.Reconciler.ReconcileArgoConfigMap` | controllers/argocd/configmap.go:380-611 | A whole pass on the object is the pass of the specification. |
| `Gauges.GaugesDriftExactly` | controllers/argocd/argocd_controller.go:224-259 | Over every run, the total and the gauge of the empty phase lag behind the instance map by exactly the number of spurious deletions; every other phase gauge equals its count. |
| `Gauges.GaugesRightIff` | controllers/argocd/argocd_controller.go:248-259 | All gauges are right exactly when every deletion had a phase or came for a counted namespace. |
| `Gauges.DeletionBeforeFirstPhase` | controllers/argocd/argocd_controller.go:248-256 | An instance deleted before its first phase makes the total negative. |
| `Gauges.Metrics.Account` | controllers/argocd/argocd_controller.go:224-259 | The accounting on the object is that of the specification. |
| `Conversion.AlphaFoldsOnce` | api/v1alpha1/argocd_conversion.go:15-187 | For every v1alpha1 object, converting to v1beta1, back and again changes nothing but the network policy, and no deprecated field comes back. |
| `Conversion.DexIsFolded` | api/v1alpha1/argocd_conversion.go:43-50 | A deprecated Dex section with a configuration or OpenShift OAuth becomes the Dex section, field by field, and the provider "dex", whatever .spec.sso holds; otherwise those of .spec.sso stay. |
| `Conversion.KeycloakIsFolded` | api/v1alpha1/argocd_conversion.go:29-42 | The Keycloak section has the four deprecated values when one is set, keeping root CA and host, and is that of .spec.sso otherwise. |
| `Conversion.ConvertToCopies` | api/v1alpha1/argocd_conversion.go:15-112 | Conversion to v1beta1 copies every other field, element by element. |
| `Conversion.ConvertFromCopies` | api/v1alpha1/argocd_conversion.go:115-187 | So does conversion to v1alpha1, for the fields that it has. |
| `Conversion.BetaRoundTripIff` | api/v1alpha1/argocd_conversion.go:115-187 | A v1beta1 object survives the trip to v1alpha1 and back exactly when it sets no field that v1alpha1 lacks, none of the four that conversion forgets, and has no list that is empty but not nil. |
| `Conversion.AlphaRoundTripIff` | api/v1alpha1/argocd_conversion.go:15-112 | A v1alpha1 object survives the trip to v1beta1 and back exactly when it uses no deprecated field, none of those four, and has no list that is empty but not nil. |
| `Conversion.KeycloakKeptIff` | api/v1alpha1/argocd_conversion.go:29-42 | The Keycloak section survives exactly when no deprecated field is set or all four agree with it. |
| `Conversion.WriteThroughIsHarmless` | api/v1alpha1/argocd_conversion.go:327-337 | Converting again a source whose shared Keycloak section was overwritten gives the same result. |
| `ConversionWebhook.ConvertSSO` | api/v1alpha1/argocd_conversion.go:23-55 | The folding on the heap, field by field: provider, Dex section and Keycloak section, the latter shared with the source and carrying the override. |
| `ConversionWebhook.ConvertSSOBack` | api/v1alpha1/argocd_conversion.go:115-131 | Converting back gives the value of the specification, shares the Keycloak section and writes nothing. |
| `ConversionWebhook.ConvertList` | api/v1alpha1/argocd_conversion.go:415-475 | A list conversion keeps length, order and contents, and makes an empty list nil. |

## Left out

- Kubernetes client, caches, watches, webhooks, manager setup, logging and reconcile hooks: plumbing around the store.
- Deployments, services, ingresses, autoscalers, Prometheus objects, network policies and the RBAC ConfigMap: long field lists with single-branch decisions.
- Policy rule tables and notification templates: the rules are parameters.
- JWT signing, UUIDs, YAML, glob and regexp matching, duration and time parsing: functions of `Env` or of a `Tools` record; a token id is the index of the call that drew it.
- Deletes that find the object already gone: between the read and the delete of one pass nobody else acts on the model's stores.
- Edits by hand and garbage collection of owned objects, except stripped namespace labels.
- Concurrent passes of one controller: local-user events hold the lock as in the source; the other passes run one at a time.
- Name truncation in `SourceNamespaces`: names there are the untruncated formats, and distinct role names for distinct instances are a premise where instances are compared.
- The checks and side effects of `ensureSourceNamespacesAllowed` before application namespaces are listed, and the application source-namespace roles themselves.
- Byte order of names is modelled as the order of code points.
- Secrets, config maps, deployments and the network policy of the Image Updater: each is one call that may fail.
- ImageUpdaterPasses.EveryRunIsExact: takes one instance per resource name and no other user of the per-namespace names as its premise `Consistent`, because the prune selector goes by the resource name alone.
- Conversion: the fields that both versions have and that are copied as they are form one map per section, and a field that is only lost is modelled by whether it is set.
- ConfigMaps: the helpers that compute single values (URIs, exclusions, OIDC and so on) are parameters, and `SetControllerReference` is modelled by its refusal of objects controlled by another owner.
- ConversionWebhook.ConvertList: stands for the ten list conversions, which differ only in the element conversion.
- reconcileSSO, image and tag selection, TLS arguments, namespace-management conditions and cluster-secret edits.
