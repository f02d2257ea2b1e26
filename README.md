# Contact-point provisioning in Grafana's ngalert, modelled in Dafny

This project models the contact-point provisioning logic of Grafana's unified
alerting (`pkg/services/ngalert/provisioning`) and proves properties of it.

An Alertmanager configuration holds an ordered list of **receiver groups**.
Every group has a name, which routes refer to, and an ordered list of
Grafana-managed receivers. A receiver is a **contact point**: a uid, a name,
a type, a resolve-message flag and a settings document. Every receiver is
meant to carry the name of the group it sits in.

The model has three parts.

- **Stitching** (`stitch.dfy`). `Stitch.Stitched` is the rule that puts an
  updated receiver back into the groups:
  - a uid that matches no receiver changes nothing;
  - a receiver whose group already has its name is replaced at its index;
    the group's other members are renamed to the group's name;
  - a group's only receiver, renamed to a name no group has, renames the group where it stands;
  - otherwise the receiver leaves its group for the end of the group with the new name, or for a
    new group appended at the end.

  Members left behind are renamed to their group's name, which is the
  self-repair of inconsistently named groups: the group the receiver stays in,
  or leaves, comes out consistently named. A group the receiver joins keeps its
  other members' names as they were. A group left empty is removed. Whether an
  update "keeps its name" is judged against the name of the group the
  receiver sits in, not against the receiver's own stored name.
  `Stitch.StitchReceiver` is the in-place operation on a `UserConfig` object.
  It returns whether a receiver was found, and it is proved to produce exactly
  `Stitched`.
- **Route usage** (`routes.dfy`). `Routes.IsContactPointInUse` walks the
  routing tree. It is proved equal to a reference definition: some path in
  the tree reaches a route naming the receiver group.
- **The service** (`provisioning.dfy`). `ContactPointService` works over two
  in-memory stores:
  - the Alertmanager configuration store, holding the groups, an opaque configuration hash and
    the last save command;
  - the provenance store, a map from uid to provenance.

  `GetContactPoints`, `CreateContactPoint` and `UpdateContactPoint` are
  methods proved against the pure outcome functions `ContactPoints`,
  `CreateOutcome` and `UpdateOutcome`. The properties are lemmas about those
  functions:
  - validation;
  - uid handling;
  - the provenance guard (only `None → X` and `X → X`);
  - preservation of unique uids;
  - where a created contact point is listed.

`scenarios.dfy` restates the table-driven expectations of
`contactpoints_test.go` over the model:
- the two fixture configurations and the six stitching cases;
- the two route trees;
- the service scenarios, as methods that drive a fresh service and assert what the tests require.

`pkg/services/ngalert/provisioning/contactpoints.go` (the implementation) is
not part of this model. The behaviour modelled is the one the tests fix. The
cases the tests do not reach follow the intended stitching algorithm:

1. find the receiver with the updated uid; if there is none, change nothing;
2. take it out of its group;
3. append the updated receiver to the group that has its name, or to a new
   group at the end when no group has it;
4. rename every member left in the old group to the old group's name;
5. remove the old group if it is now empty.

Where that algorithm and the tests disagree, the model follows the tests:

- Step 2 and 3 together would move a receiver to the end of its group even
  when its name is unchanged. The tests keep such a receiver at its old index
  (`contactpoints_test.go:291-340`). Step 4 still applies, so the group's
  other members are renamed.
- Steps 3 and 5 would move a group's only member into a new group at the end.
  The tests rename that group where it stands (`contactpoints_test.go:342-391`).

Cases no test shows follow the algorithm:
- a group's only member renamed to the name of another existing group joins
  that group, and the old group is removed;
- an update of an unknown uid fails with not-found.

## Model

| member | source | states |
|---|---|---|
| Routes.IsContactPointInUse | pkg/services/ngalert/provisioning/contactpoints_test.go:222-251 | the recursive walk over the routing tree; what it computes is stated by `Routes.InUseIffReferenced` |
| Routes.InUseIffReferenced | pkg/services/ngalert/provisioning/contactpoints_test.go:222-251 | the route check is true exactly when some route at any depth of the tree names the receiver, and false when none does |
| Routes.InUseIsReferenced | pkg/services/ngalert/provisioning/contactpoints_test.go:237-250 | when the check is true, there is a path to a route naming the receiver; so a tree where no route names the receiver gives false |
| Routes.ReferencedIsInUse | pkg/services/ngalert/provisioning/contactpoints_test.go:222-236 | any route reachable by a path that names the receiver makes the check true |
| Stitch.FindReceiver | pkg/services/ngalert/provisioning/contactpoints_test.go:566-578 | the located receiver has the uid, and no earlier receiver has it; if none is located, no receiver has the uid |
| Stitch.Stitched | pkg/services/ngalert/provisioning/contactpoints_test.go:272-578 | the stitching rule; a stitch adds or removes at most one group; the cases are stated by the lemmas below |
| Stitch.StitchUnknownUid | pkg/services/ngalert/provisioning/contactpoints_test.go:283-289 | a uid that no receiver has leaves the groups exactly as they were |
| Stitch.StitchReplacesInPlace | pkg/services/ngalert/provisioning/contactpoints_test.go:291-340 | an update keeping the group's name replaces the receiver at its index and renames the group's members to the group's name, so the group comes out consistent; every other group is unchanged, and on a consistent group only the receiver changes |
| Stitch.StitchRenamesSoleGroup | pkg/services/ngalert/provisioning/contactpoints_test.go:342-391 | renaming a group's only receiver to an unused name renames that group at the same position, with the same number of groups |
| Stitch.StitchMovesToExistingGroup | pkg/services/ngalert/provisioning/contactpoints_test.go:393-442 | renaming to another group's name appends the receiver to that group and takes it out of its old group; an emptied old group is removed |
| Stitch.StitchMovesToNewGroup | pkg/services/ngalert/provisioning/contactpoints_test.go:443-502 | renaming a receiver with siblings to an unused name appends exactly one new single-member group at the end |
| Stitch.StitchHealsSourceGroup | pkg/services/ngalert/provisioning/contactpoints_test.go:504-563 | the group a receiver leaves keeps its place and name, loses exactly one member, and every remaining member carries its name |
| Stitch.StitchRestoresConsistency | pkg/services/ngalert/provisioning/contactpoints_test.go:504-563 | if every group that does not hold the updated uid was consistently named, every receiver of every group carries its group's name after stitching, however the group holding the uid was named before; a group the receiver joins must already have been consistent |
| Stitch.RenamedConsistent | pkg/services/ngalert/provisioning/contactpoints_test.go:393-442 | renaming consistently named members to their group's name changes nothing |
| Stitch.StitchPlacesTarget | pkg/services/ngalert/provisioning/contactpoints_test.go:566-578 | whenever the uid is found, the updated receiver ends up in a group carrying its name |
| Stitch.StitchKeepsGroupNamesUnique | pkg/services/ngalert/provisioning/contactpoints_test.go:566-578 | stitching never makes two groups share a name |
| Stitch.StitchPreservesUniqueUids | pkg/services/ngalert/provisioning/contactpoints_test.go:566-578 | stitching never makes two receivers share a uid |
| Stitch.LocateReceiver | pkg/services/ngalert/provisioning/contactpoints_test.go:566-578 | the scan over groups and receivers finds exactly the receiver picked by the search rule |
| Stitch.LocateGroup | pkg/services/ngalert/provisioning/contactpoints_test.go:393-502 | the scan over groups finds exactly the first group with the name |
| Stitch.RenameAll | pkg/services/ngalert/provisioning/contactpoints_test.go:504-563 | the loop gives every receiver the group's name and changes nothing else |
| Stitch.StitchReceiver | pkg/services/ngalert/provisioning/contactpoints_test.go:566-578 | the in-place operation reports whether a receiver has the uid and leaves the configuration's groups equal to the stitching rule's result |
| Provisioning.CanUpdateProvenance | pkg/services/ngalert/provisioning/contactpoints_test.go:129-201 | the provenance guard; its transition table is stated by `Provisioning.ProvenanceTransitions` |
| Provisioning.ProvenanceTransitions | pkg/services/ngalert/provisioning/contactpoints_test.go:129-201 | an untagged object can be claimed by any source and a source can rewrite its own; File to API and API to File are refused, and nothing else is allowed |
| Provisioning.MergeRedacted | pkg/services/ngalert/provisioning/contactpoints_test.go:108-118 | the merged settings have exactly the keys sent |
| Provisioning.MergeRedactedProperties | pkg/services/ngalert/provisioning/contactpoints_test.go:108-118 | the merged settings have exactly the incoming keys; values sent in clear are kept, and redacted values are taken from the stored settings |
| Provisioning.MergeKeepsClearSettings | pkg/services/ngalert/provisioning/contactpoints_test.go:129-169 | settings sent with no redacted value are stored exactly as sent |
| Provisioning.MergeRestoresRedactedView | pkg/services/ngalert/provisioning/contactpoints_test.go:108-118 | sending back the settings as they were shown, with some values redacted, restores the stored settings exactly |
| Provisioning.ContactPoints | pkg/services/ngalert/provisioning/contactpoints_test.go:22-44 | one contact point per receiver, in configuration order, each with the receiver's uid, name, type, resolve-message flag and settings and the provenance stored for its uid |
| Provisioning.UntaggedReadsAsNone | pkg/services/ngalert/provisioning/contactpoints_test.go:120-127 | a listed contact point without a provenance tag reads as provenance None |
| Provisioning.CreateOutcome | pkg/services/ngalert/provisioning/contactpoints_test.go:32-82 | create succeeds exactly when the contact point is valid and its uid (the caller's, or the generated one) is unused; the returned contact point carries that uid and the provenance the call tags it with; a valid create that fails fails with uid-in-use |
| Provisioning.CreateRejectsInvalid | pkg/services/ngalert/provisioning/contactpoints_test.go:74-82 | create with an empty type, name or settings fails with a validation error |
| Provisioning.CreateStoresUnderUid | pkg/services/ngalert/provisioning/contactpoints_test.go:46-59 | a valid create with an unused uid succeeds; a caller-supplied uid is kept, otherwise the generated one is used; the returned contact point carries the call's provenance; the receiver is stored under that uid in a group carrying its name |
| Provisioning.CreatePreservesUniqueUids | pkg/services/ngalert/provisioning/contactpoints_test.go:61-72 | a successful create keeps uids unique across the configuration |
| Provisioning.CreateRejectsUsedUid | pkg/services/ngalert/provisioning/contactpoints_test.go:61-72 | a create that reuses an existing uid fails with uid-in-use |
| Provisioning.CreateTwiceFails | pkg/services/ngalert/provisioning/contactpoints_test.go:61-72 | creating the same contact point twice with a custom uid succeeds first and fails second |
| Provisioning.CreateAppendsContactPoint | pkg/services/ngalert/provisioning/contactpoints_test.go:32-44 | a created contact point whose name no group has is listed after all existing ones, which are listed as before; it is listed exactly as create returned it, provenance included |
| Provisioning.CreateJoinsExistingGroup | pkg/services/ngalert/provisioning/contactpoints_test.go:32-82 | a contact point whose name a group already has is appended to the end of that group; every other receiver and group is unchanged |
| Provisioning.CreateAddsGroup | pkg/services/ngalert/provisioning/contactpoints_test.go:32-44 | a contact point whose name no group has gets a new single-member group appended after all existing groups, which are unchanged |
| Provisioning.CreateKeepsGroupNamesUnique | pkg/services/ngalert/provisioning/contactpoints_test.go:32-82 | a successful create never makes two groups share a name |
| Provisioning.CreateKeepsConsistent | pkg/services/ngalert/provisioning/contactpoints_test.go:32-82 | a successful create keeps consistently named groups consistent |
| Provisioning.UpdateOutcome | pkg/services/ngalert/provisioning/contactpoints_test.go:84-201 | a successful update had a name, a type and non-empty settings, named an existing uid, and passed the provenance guard |
| Provisioning.UpdateRejectsInvalid | pkg/services/ngalert/provisioning/contactpoints_test.go:84-118 | an update with no settings fails with a validation error; so does an update of an existing uid with an empty type or with settings empty after merging |
| Provisioning.UpdateUnknownUid | pkg/services/ngalert/provisioning/contactpoints_test.go:84-201 | an update of a uid no receiver has fails with not-found (no test reaches this case) |
| Provisioning.UpdateRefusesForeignProvenance | pkg/services/ngalert/provisioning/contactpoints_test.go:171-201 | a valid update from a source other than the tagged one fails with a provenance conflict naming both, whatever values it sends redacted |
| Provisioning.UpdateAcceptsOwnOrUntagged | pkg/services/ngalert/provisioning/contactpoints_test.go:129-169 | a valid update of an untagged contact point, or one the same source owns, succeeds and stitches into the groups the receiver with the sent fields and the sent settings, each redacted value taken back from the stored receiver |
| Provisioning.UpdatePreservesUniqueUids | pkg/services/ngalert/provisioning/contactpoints_test.go:129-169 | a successful update keeps uids unique across the configuration |
| Provisioning.AlertmanagerConfigStore.GetLatestConfiguration | pkg/services/ngalert/provisioning/contactpoints_test.go:203-210 | reading returns the stored groups and the current configuration hash |
| Provisioning.AlertmanagerConfigStore.UpdateConfiguration | pkg/services/ngalert/provisioning/contactpoints_test.go:214-218 | a save records its command; it is accepted exactly when its fetched hash is the current one, and the stored groups and hash change only then |
| Provisioning.ProvisioningStore.GetProvenance | pkg/services/ngalert/provisioning/contactpoints_test.go:120-127 | the stored tag, or None for an untagged uid |
| Provisioning.ProvisioningStore.SetProvenance | pkg/services/ngalert/provisioning/contactpoints_test.go:141-147 | the uid's tag becomes the given provenance and nothing else changes |
| Provisioning.ContactPointService.constructor | pkg/services/ngalert/provisioning/contactpoints_test.go:253-261 | the service works over the given configuration store and provenance store |
| Provisioning.ContactPointService.GetContactPoints | pkg/services/ngalert/provisioning/contactpoints_test.go:22-30 | the loops list every receiver of every group in configuration order, each with its provenance |
| Provisioning.ContactPointService.CreateContactPoint | pkg/services/ngalert/provisioning/contactpoints_test.go:32-82 | a refused create changes nothing; a successful one saves the new groups with the fetched hash, tags its uid with the provenance, and returns the contact point with the uid it is stored under and that provenance |
| Provisioning.ContactPointService.UpdateContactPoint | pkg/services/ngalert/provisioning/contactpoints_test.go:84-201 | a refused update changes nothing; a successful one saves the stitched groups with the fetched hash and tags the uid with the provenance |
| Scenarios.FixtureUids | pkg/services/ngalert/provisioning/contactpoints_test.go:581-674 | both fixture configurations have unique uids and unique group names |
| Scenarios.StitchNonMatchingUid | pkg/services/ngalert/provisioning/contactpoints_test.go:283-289 | uid "does not exist" is absent, and stitching it returns the fixture unchanged |
| Scenarios.StitchUnchangedNameReplaces | pkg/services/ngalert/provisioning/contactpoints_test.go:291-340 | ghi updated to type teams under receiver-2 gives exactly the expected configuration |
| Scenarios.StitchSoleReceiverRenamesGroup | pkg/services/ngalert/provisioning/contactpoints_test.go:342-391 | abc renamed to new-receiver renames group receiver-1 in first position |
| Scenarios.StitchRenameToExistingGroupMoves | pkg/services/ngalert/provisioning/contactpoints_test.go:393-442 | def renamed to receiver-1 is appended to receiver-1 and leaves receiver-2 with ghi and jkl |
| Scenarios.StitchRenameToNewGroupCreatesIt | pkg/services/ngalert/provisioning/contactpoints_test.go:443-502 | jkl renamed to brand-new-group is moved into a new third group |
| Scenarios.StitchRepairsInconsistentGroup | pkg/services/ngalert/provisioning/contactpoints_test.go:504-563 | on the inconsistent fixture, moving ghi out gives exactly the expected configuration, and every receiver carries its group's name afterwards |
| Scenarios.StitchRepairedGroupsConsistent | pkg/services/ngalert/provisioning/contactpoints_test.go:504-563 | the general repair property applies to the inconsistent fixture: after moving ghi, every receiver carries its group's name |
| Scenarios.StitchUnchangedNameHealsSiblings | pkg/services/ngalert/provisioning/contactpoints_test.go:504-563 | on the inconsistent fixture, def updated under its group's name also renames its misnamed sibling ghi, and every receiver carries its group's name |
| Scenarios.StitchOwnMisnameMovesOut | pkg/services/ngalert/provisioning/contactpoints_test.go:504-563 | on the inconsistent fixture, ghi sent back under its own stored name receiver-3 moves to a new group receiver-3, and receiver-2 keeps def and jkl |
| Scenarios.RouteScenarios | pkg/services/ngalert/provisioning/contactpoints_test.go:222-251 | the tree with a nested "test" route is in use, and the tree without one is not |
| Scenarios.NewService | pkg/services/ngalert/provisioning/contactpoints_test.go:253-261 | a fresh service over the default configuration, hash 0, and no provenance tags |
| Scenarios.DefaultConfigFacts | pkg/services/ngalert/provisioning/contactpoints_test.go:22-30 | the default configuration lists "email receiver" alone, with provenance None, and the test contact point is valid |
| Scenarios.CreatedTestConfig | pkg/services/ngalert/provisioning/contactpoints_test.go:32-44 | creating the test contact point in the default configuration appends one group holding it, lists it second with its provenance, and writing it back unchanged keeps the groups |
| Scenarios.TakeOverOutcomes | pkg/services/ngalert/provisioning/contactpoints_test.go:129-201 | on the created test contact point, an update from either source succeeds while it is untagged, and the other source is then refused with a provenance conflict |

The methods `Scenarios.ScenarioGetAndCreate`, `ScenarioCustomUid`,
`ScenarioValidation`, `ScenarioProvenanceTakeOver`,
`ScenarioProvenanceFileBlocksApi` and `ScenarioConcurrencyToken` restate the
tests at `contactpoints_test.go:22-219` as assertions on a fresh service.

## Left out

- Secure settings and their encryption are not modelled. The encryption service is a collaborator outside the core.
- Redacted values: a settings value equal to `[REDACTED]` takes back the stored value on update, whatever its key. The source's split into secure and plain keys is not modelled.
- The contents of the settings document are not checked. Settings are a string map; validation checks only that it is present and non-empty.
- Organisations are not modelled: every operation works on the one configuration. The transaction manager and logging are left out. Storage errors cannot occur in the in-memory stores.
- The configuration hash is a number that every accepted save increments. How the real store computes it is not modelled; only its echo into the save command is.
- The uid the service generates for a contact point without one is a parameter of `CreateContactPoint`. Randomness is outside the model.
- `GetContactPoints` lists contact points in configuration order. The tests cannot tell this apart from another stable order.
- The default configuration of the fake configuration store is not part of this model. `Scenarios.DefaultConfig` stands in for it: one group with the receiver "email receiver".
- Which name an update keeps: no test sends a misnamed receiver back under its own stored name. For such an update the model compares the sent name with the group's name, as the stitching algorithm's third step does, so a receiver sent back under its own misnamed name moves to a group of that name (`Scenarios.StitchOwnMisnameMovesOut`).
- Delete is not modelled: no test exercises it. The route check is modelled on its own.
- Provisioning.ContactPointService.UpdateContactPoint: does not model merging absent fields from the stored contact point. With type and settings required in every update, the tests show no other field being merged.
