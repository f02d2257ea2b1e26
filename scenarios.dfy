/** The concrete configurations and expectations of the contact-point tests,
    stated as proof obligations over the model. */
module Scenarios {
  import opened Definitions
  import opened Routes
  import opened Stitch
  import opened Provisioning

  function Receiver(uid: string, name: string, kind: string): GrafanaReceiver
  {
    GrafanaReceiver(uid, name, kind, false, map[])
  }

  /** Two groups: "receiver-1" with abc, "receiver-2" with def, ghi and jkl. */
  function TestConfigWithReceivers(): seq<ReceiverGroup>
  {
    [ ReceiverGroup("receiver-1", [Receiver("abc", "receiver-1", "slack")]),
      ReceiverGroup("receiver-2", [ Receiver("def", "receiver-2", "slack"),
                                    Receiver("ghi", "receiver-2", "email"),
                                    Receiver("jkl", "receiver-2", "discord") ]) ]
  }

  /** The same, except that ghi is named "receiver-3" inside group "receiver-2". */
  function InconsistentTestConfigWithReceivers(): seq<ReceiverGroup>
  {
    [ ReceiverGroup("receiver-1", [Receiver("abc", "receiver-1", "slack")]),
      ReceiverGroup("receiver-2", [ Receiver("def", "receiver-2", "slack"),
                                    Receiver("ghi", "receiver-3", "email"),
                                    Receiver("jkl", "receiver-2", "discord") ]) ]
  }

  /** Both fixtures use the uids abc, def, ghi and jkl once each. */
  lemma FixtureUids(groups: seq<ReceiverGroup>)
    requires groups == TestConfigWithReceivers() || groups == InconsistentTestConfigWithReceivers()
    ensures UniqueUids(groups) && UniqueGroupNames(groups)
  {
    var uids := [["abc"], ["def", "ghi", "jkl"]];
    assert |groups| == 2 && |groups[0].receivers| == 1 && |groups[1].receivers| == 3;
    assert forall g, i :: 0 <= g < 2 && 0 <= i < |groups[g].receivers| ==> groups[g].receivers[i].uid == uids[g][i];
    forall g1, i1, g2, i2 |
      0 <= g1 < |groups| && 0 <= i1 < |groups[g1].receivers| &&
      0 <= g2 < |groups| && 0 <= i2 < |groups[g2].receivers| &&
      groups[g1].receivers[i1].uid == groups[g2].receivers[i2].uid
      ensures g1 == g2 && i1 == i2
    {
      assert uids[g1][i1] == uids[g2][i2];
    }
  }

  lemma StitchNonMatchingUid(groups: seq<ReceiverGroup>)
    requires groups == TestConfigWithReceivers()
    ensures !HasUid(groups, "does not exist")
    ensures Stitched(groups, Receiver("does not exist", "", "")) == groups
  {
    StitchUnknownUid(groups, Receiver("does not exist", "", ""));
  }

  lemma StitchUnchangedNameReplaces(groups: seq<ReceiverGroup>, target: GrafanaReceiver)
    requires groups == TestConfigWithReceivers()
    requires target == Receiver("ghi", "receiver-2", "teams")
    ensures HasUid(groups, "ghi")
    ensures Stitched(groups, target) ==
      [ ReceiverGroup("receiver-1", [Receiver("abc", "receiver-1", "slack")]),
        ReceiverGroup("receiver-2", [ Receiver("def", "receiver-2", "slack"),
                                      target,
                                      Receiver("jkl", "receiver-2", "discord") ]) ]
  {
    FixtureUids(groups);
    StitchReplacesInPlace(groups, target, 1, 1);
    assert groups[1].receivers[1 := target] == [groups[1].receivers[0], target, groups[1].receivers[2]];
  }

  lemma StitchSoleReceiverRenamesGroup(groups: seq<ReceiverGroup>)
    requires groups == TestConfigWithReceivers()
    ensures HasUid(groups, "abc")
    ensures Stitched(groups, Receiver("abc", "new-receiver", "slack")) ==
      [ ReceiverGroup("new-receiver", [Receiver("abc", "new-receiver", "slack")]),
        ReceiverGroup("receiver-2", [ Receiver("def", "receiver-2", "slack"),
                                      Receiver("ghi", "receiver-2", "email"),
                                      Receiver("jkl", "receiver-2", "discord") ]) ]
  {
    FixtureUids(groups);
    StitchRenamesSoleGroup(groups, Receiver("abc", "new-receiver", "slack"), 0);
  }

  /** The groups the move of def into receiver-1 produces, spelled out. */
  lemma DefMovedGroups()
    ensures var groups := TestConfigWithReceivers();
      var target := Receiver("def", "receiver-1", "slack");
      var joined := groups[0 := groups[0].(receivers := groups[0].receivers + [target])];
      joined[1 := ReceiverGroup("receiver-2", Without(groups[1].receivers, 0))] ==
      [ ReceiverGroup("receiver-1", [ Receiver("abc", "receiver-1", "slack"),
                                      Receiver("def", "receiver-1", "slack") ]),
        ReceiverGroup("receiver-2", [ Receiver("ghi", "receiver-2", "email"),
                                      Receiver("jkl", "receiver-2", "discord") ]) ]
  {
    var groups := TestConfigWithReceivers();
    var target := Receiver("def", "receiver-1", "slack");
    var rs := groups[1].receivers;
    assert Without(rs, 0) == [rs[1], rs[2]];
    assert groups[0].receivers + [target] == [groups[0].receivers[0], target];
    var joined := groups[0 := groups[0].(receivers := groups[0].receivers + [target])];
    assert joined == [ReceiverGroup("receiver-1", [groups[0].receivers[0], target]), groups[1]];
    assert joined[1 := ReceiverGroup("receiver-2", [rs[1], rs[2]])] ==
      [joined[0], ReceiverGroup("receiver-2", [rs[1], rs[2]])];
  }

  lemma StitchRenameToExistingGroupMoves(groups: seq<ReceiverGroup>)
    requires groups == TestConfigWithReceivers()
    ensures HasUid(groups, "def")
    ensures Stitched(groups, Receiver("def", "receiver-1", "slack")) ==
      [ ReceiverGroup("receiver-1", [ Receiver("abc", "receiver-1", "slack"),
                                      Receiver("def", "receiver-1", "slack") ]),
        ReceiverGroup("receiver-2", [ Receiver("ghi", "receiver-2", "email"),
                                      Receiver("jkl", "receiver-2", "discord") ]) ]
  {
    FixtureUids(groups);
    StitchMovesToExistingGroup(groups, Receiver("def", "receiver-1", "slack"), 1, 0, 0);
    RenamedConsistent(Without(groups[1].receivers, 0), "receiver-2");
    DefMovedGroups();
  }

  lemma StitchRenameToNewGroupCreatesIt(groups: seq<ReceiverGroup>, target: GrafanaReceiver)
    requires groups == TestConfigWithReceivers()
    requires target == Receiver("jkl", "brand-new-group", "opsgenie")
    ensures HasUid(groups, "jkl")
    ensures Stitched(groups, target) ==
      [ ReceiverGroup("receiver-1", [Receiver("abc", "receiver-1", "slack")]),
        ReceiverGroup("receiver-2", [ Receiver("def", "receiver-2", "slack"),
                                      Receiver("ghi", "receiver-2", "email") ]),
        ReceiverGroup("brand-new-group", [target]) ]
  {
    FixtureUids(groups);
    assert groups[0].name != target.name && groups[1].name != target.name;
    StitchMovesToNewGroup(groups, target, 1, 2);
    var rs := groups[1].receivers;
    assert Without(rs, 2) == [rs[0], rs[1]];
    RenamedConsistent(Without(rs, 2), "receiver-2");
    var left := ReceiverGroup("receiver-2", [rs[0], rs[1]]);
    assert groups[1 := left] == [groups[0], left];
    assert groups[1 := left] + [ReceiverGroup(target.name, [target])] == [groups[0], left, ReceiverGroup(target.name, [target])];
  }

  lemma StitchRepairsInconsistentGroup(groups: seq<ReceiverGroup>, target: GrafanaReceiver)
    requires groups == InconsistentTestConfigWithReceivers()
    requires target == Receiver("ghi", "brand-new-group", "opsgenie")
    ensures !Consistent(groups)
    ensures HasUid(groups, "ghi")
    ensures Stitched(groups, target) ==
      [ ReceiverGroup("receiver-1", [Receiver("abc", "receiver-1", "slack")]),
        ReceiverGroup("receiver-2", [ Receiver("def", "receiver-2", "slack"),
                                      Receiver("jkl", "receiver-2", "discord") ]),
        ReceiverGroup("brand-new-group", [target]) ]
  {
    FixtureUids(groups);
    assert groups[1].receivers[1].name != groups[1].name;
    assert groups[0].name != target.name && groups[1].name != target.name;
    StitchMovesToNewGroup(groups, target, 1, 1);
    var rs := groups[1].receivers;
    assert Without(rs, 1) == [rs[0], rs[2]];
    RenamedConsistent(Without(rs, 1), "receiver-2");
    var left := ReceiverGroup("receiver-2", [rs[0], rs[2]]);
    assert groups[1 := left] == [groups[0], left];
    assert groups[1 := left] + [ReceiverGroup(target.name, [target])] == [groups[0], left, ReceiverGroup(target.name, [target])];
  }

  /** The general repair property applies to the inconsistent fixture: only
      the moved receiver was misnamed, so afterwards every receiver carries
      its group's name. */
  lemma StitchRepairedGroupsConsistent(groups: seq<ReceiverGroup>)
    requires groups == InconsistentTestConfigWithReceivers()
    ensures Consistent(Stitched(groups, Receiver("ghi", "brand-new-group", "opsgenie")))
  {
    FixtureUids(groups);
    StitchRestoresConsistency(groups, Receiver("ghi", "brand-new-group", "opsgenie"));
  }

  /** On the inconsistent fixture, an update of def that keeps the group's
      name also repairs its misnamed sibling ghi. */
  lemma StitchUnchangedNameHealsSiblings(groups: seq<ReceiverGroup>, target: GrafanaReceiver)
    requires groups == InconsistentTestConfigWithReceivers()
    requires target == Receiver("def", "receiver-2", "teams")
    ensures Stitched(groups, target) ==
      [ ReceiverGroup("receiver-1", [Receiver("abc", "receiver-1", "slack")]),
        ReceiverGroup("receiver-2", [ target,
                                      Receiver("ghi", "receiver-2", "email"),
                                      Receiver("jkl", "receiver-2", "discord") ]) ]
    ensures Consistent(Stitched(groups, target))
  {
    FixtureUids(groups);
    StitchReplacesInPlace(groups, target, 1, 0);
    var rs := groups[1].receivers;
    assert rs[0 := target] == [target, rs[1], rs[2]];
    assert Renamed([target, rs[1], rs[2]], "receiver-2") ==
      [target, Receiver("ghi", "receiver-2", "email"), rs[2]];
    StitchRestoresConsistency(groups, target);
  }

  /** Whether an update keeps its name is judged against the group's name:
      ghi sent back under its own misnamed "receiver-3" leaves "receiver-2"
      for a new group "receiver-3". */
  lemma StitchOwnMisnameMovesOut(groups: seq<ReceiverGroup>, target: GrafanaReceiver)
    requires groups == InconsistentTestConfigWithReceivers()
    requires target == Receiver("ghi", "receiver-3", "email")
    ensures Stitched(groups, target) ==
      [ ReceiverGroup("receiver-1", [Receiver("abc", "receiver-1", "slack")]),
        ReceiverGroup("receiver-2", [ Receiver("def", "receiver-2", "slack"),
                                      Receiver("jkl", "receiver-2", "discord") ]),
        ReceiverGroup("receiver-3", [target]) ]
  {
    FixtureUids(groups);
    assert groups[0].name != target.name && groups[1].name != target.name;
    StitchMovesToNewGroup(groups, target, 1, 1);
    var rs := groups[1].receivers;
    assert Without(rs, 1) == [rs[0], rs[2]];
    RenamedConsistent(Without(rs, 1), "receiver-2");
    var left := ReceiverGroup("receiver-2", [rs[0], rs[2]]);
    assert groups[1 := left] + [ReceiverGroup(target.name, [target])] == [groups[0], left, ReceiverGroup(target.name, [target])];
  }

  lemma RouteScenarios()
    ensures IsContactPointInUse("test", [Route("not-test", [Route("not-test", []), Route("test", [])])])
    ensures !IsContactPointInUse("test", [Route("not-test", [Route("not-test", []), Route("not-test", [])])])
  {
  }

  // ---------------------------------------------------------------------------
  // The service, driven as its tests drive it
  // ---------------------------------------------------------------------------

  /** The store's starting configuration: one group holding the receiver
      "email receiver". */
  function DefaultConfig(): seq<ReceiverGroup>
  {
    [ReceiverGroup("grafana-default-email",
       [GrafanaReceiver("", "email receiver", "email", false, map["addresses" := "<example@email.com>"])])]
  }

  function TestContactPoint(): EmbeddedContactPoint
  {
    EmbeddedContactPoint("", "test-contact-point", "slack", false,
      Some(map["recipient" := "value_recipient", "token" := "value_token"]), ProvenanceNone)
  }

  method NewService() returns (sut: ContactPointService)
    ensures fresh(sut) && fresh(sut.amStore) && fresh(sut.provenanceStore)
    ensures sut.amStore.receivers == DefaultConfig() && sut.amStore.configurationHash == 0
    ensures sut.provenanceStore.provenances == map[]
  {
    var am := new AlertmanagerConfigStore(DefaultConfig(), 0);
    var prov := new ProvisioningStore(map[]);
    sut := new ContactPointService(am, prov);
  }

  /** The facts about the default configuration the service scenarios start from. */
  lemma DefaultConfigFacts(uid: string)
    requires uid != ""
    ensures UniqueUids(DefaultConfig()) && !HasUid(DefaultConfig(), uid)
    ensures forall k :: 0 <= k < |DefaultConfig()| ==> DefaultConfig()[k].name != TestContactPoint().name
    ensures ContactPoints(DefaultConfig(), map[]) ==
      [EmbeddedContactPoint("", "email receiver", "email", false, Some(map["addresses" := "<example@email.com>"]), ProvenanceNone)]
    ensures Valid(TestContactPoint())
    ensures forall k :: k in TestContactPoint().settings.value ==> TestContactPoint().settings.value[k] != RedactedValue
  {
    var groups := DefaultConfig();
    assert groups[1..] == [];
    assert AllReceivers(groups) == groups[0].receivers;
    assert "recipient" in TestContactPoint().settings.value;
  }

  method ScenarioGetAndCreate()
  {
    var sut := NewService();
    DefaultConfigFacts("generated-1");
    var cps := sut.GetContactPoints();
    assert |cps| == 1 && cps[0].name == "email receiver";
    assert cps[0].provenance == ProvenanceNone;

    var cp := TestContactPoint();
    CreateStoresUnderUid(DefaultConfig(), cp, "generated-1", ProvenanceApi);
    CreateAppendsContactPoint(DefaultConfig(), map[], cp, "generated-1", ProvenanceApi);
    var created := sut.CreateContactPoint(cp, ProvenanceApi, "generated-1");
    assert created == Ok(cp.(uid := "generated-1", provenance := ProvenanceApi));
    cps := sut.GetContactPoints();
    assert |cps| == 2 && cps[1].name == "test-contact-point" && cps[1].kind == "slack";
    assert cps[1].uid == "generated-1" && cps[1].provenance == ProvenanceApi;
    assert cps[1] == created.value;
  }

  method ScenarioCustomUid()
  {
    var sut := NewService();
    DefaultConfigFacts("1337");
    var cp := TestContactPoint().(uid := "1337");
    CreateStoresUnderUid(DefaultConfig(), cp, "generated-1", ProvenanceApi);
    CreateAppendsContactPoint(DefaultConfig(), map[], cp, "generated-1", ProvenanceApi);
    CreateTwiceFails(DefaultConfig(), cp, "generated-1", "generated-2", ProvenanceApi);
    var first := sut.CreateContactPoint(cp, ProvenanceApi, "generated-1");
    var cps := sut.GetContactPoints();
    assert |cps| == 2 && cps[1].uid == "1337";

    var second := sut.CreateContactPoint(cp, ProvenanceApi, "generated-2");
    assert second == Err(ErrUidInUse("1337"));
  }

  method ScenarioValidation()
  {
    var sut := NewService();
    DefaultConfigFacts("generated-1");
    CreateRejectsInvalid(DefaultConfig(), TestContactPoint().(kind := ""), "generated-1", ProvenanceApi);
    var noType := sut.CreateContactPoint(TestContactPoint().(kind := ""), ProvenanceApi, "generated-1");
    assert noType.Err? && noType.error.ErrValidation?;

    CreateStoresUnderUid(DefaultConfig(), TestContactPoint(), "generated-1", ProvenanceApi);
    var groups := CreateOutcome(DefaultConfig(), TestContactPoint(), "generated-1", ProvenanceApi).value.0;
    var created := sut.CreateContactPoint(TestContactPoint(), ProvenanceApi, "generated-1");
    var cp := created.value;
    UpdateRejectsInvalid(groups, map[cp.uid := ProvenanceApi], cp.(settings := None), ProvenanceApi);
    UpdateRejectsInvalid(groups, map[cp.uid := ProvenanceApi], cp.(kind := ""), ProvenanceApi);
    UpdateRejectsInvalid(groups, map[cp.uid := ProvenanceApi], cp.(settings := Some(map[])), ProvenanceApi);
    var r := sut.UpdateContactPoint(cp.(settings := None), ProvenanceApi);
    assert r.Err? && r.error.ErrValidation?;
    r := sut.UpdateContactPoint(cp.(kind := ""), ProvenanceApi);
    assert r.Err? && r.error.ErrValidation?;
    r := sut.UpdateContactPoint(cp.(settings := Some(map[])), ProvenanceApi);
    assert r.Err? && r.error.ErrValidation?;
  }

  /** The receiver that creating the test contact point under `uid` stores. */
  function TestReceiver(uid: string): GrafanaReceiver
  {
    var cp := TestContactPoint();
    GrafanaReceiver(uid, cp.name, cp.kind, cp.disableResolveMessage, cp.settings.value)
  }

  /** The default configuration with the test contact point created under `uid`. */
  function CreatedGroups(uid: string): seq<ReceiverGroup>
  {
    DefaultConfig() + [ReceiverGroup(TestContactPoint().name, [TestReceiver(uid)])]
  }

  /** Creating the test contact point in the default configuration adds one
      group holding its receiver, listed after the default contact point;
      writing that same receiver back changes nothing. */
  lemma CreatedTestConfig(uid: string, p: Provenance)
    requires uid != ""
    ensures CreateOutcome(DefaultConfig(), TestContactPoint(), uid, p) ==
      Ok((CreatedGroups(uid), TestContactPoint().(uid := uid, provenance := p)))
    ensures UniqueUids(CreatedGroups(uid)) && HasUid(CreatedGroups(uid), uid)
    ensures ContactPoints(CreatedGroups(uid), map[uid := p]) ==
      ContactPoints(DefaultConfig(), map[]) + [TestContactPoint().(uid := uid, provenance := p)]
    ensures Stitched(CreatedGroups(uid), TestReceiver(uid)) == CreatedGroups(uid)
  {
    DefaultConfigFacts(uid);
    CreateStoresUnderUid(DefaultConfig(), TestContactPoint(), uid, p);
    CreatePreservesUniqueUids(DefaultConfig(), TestContactPoint(), uid, p);
    CreateAppendsContactPoint(DefaultConfig(), map[], TestContactPoint(), uid, p);
    var groups := CreatedGroups(uid);
    StitchReplacesInPlace(groups, TestReceiver(uid), 1, 0);
    assert groups[1].receivers[0 := TestReceiver(uid)] == groups[1].receivers;
    assert groups[1 := groups[1].(receivers := groups[1].receivers)] == groups;
  }

  /** On the created test contact point, an untagged one is taken over by the
      source `p`, which then owns it, and the other source `q` is refused. */
  lemma TakeOverOutcomes(uid: string, p: Provenance, q: Provenance)
    requires uid != "" && p != ProvenanceNone && q != ProvenanceNone && p != q
    ensures UpdateOutcome(CreatedGroups(uid), map[uid := ProvenanceNone], TestContactPoint().(uid := uid), p) == Ok(CreatedGroups(uid))
    ensures UpdateOutcome(CreatedGroups(uid), map[uid := p], TestContactPoint().(uid := uid), q) == Err(ErrProvenanceConflict(p, q))
  {
    var cp := TestContactPoint().(uid := uid);
    DefaultConfigFacts(uid);
    CreatedTestConfig(uid, p);
    UpdateAcceptsOwnOrUntagged(CreatedGroups(uid), map[uid := ProvenanceNone], cp, p, 1, 0);
    MergeKeepsClearSettings(cp.settings.value, TestReceiver(uid).settings);
    UpdateRefusesForeignProvenance(CreatedGroups(uid), map[uid := p], cp, q);
  }

  /** An untagged contact point can be taken over by either provisioning
      source `p`; afterwards the other source `q` cannot update it.
      `generatedUid` is the uid the service generates for it. */
  method ScenarioProvenanceTakeOver(generatedUid: string, p: Provenance, q: Provenance)
    requires generatedUid != "" && p != ProvenanceNone && q != ProvenanceNone && p != q
  {
    var sut := NewService();
    var cp := TestContactPoint().(uid := generatedUid);
    CreatedTestConfig(cp.uid, ProvenanceNone);
    CreatedTestConfig(cp.uid, p);
    TakeOverOutcomes(cp.uid, p, q);
    assert map[cp.uid := ProvenanceNone][cp.uid := p] == map[cp.uid := p];
    var created := sut.CreateContactPoint(TestContactPoint(), ProvenanceNone, cp.uid);
    assert created == Ok(cp);
    var cps := sut.GetContactPoints();
    assert cps[1].uid == cp.uid && cps[1].provenance == ProvenanceNone;

    var r := sut.UpdateContactPoint(cp, p);
    assert r.Ok?;
    cps := sut.GetContactPoints();
    assert cps[1].uid == cp.uid && cps[1].provenance == p;

    r := sut.UpdateContactPoint(cp, q);
    assert r == Err(ErrProvenanceConflict(p, q));
  }

  /** A contact point provisioned from files cannot be updated through the API. */
  method ScenarioProvenanceFileBlocksApi()
  {
    var sut := NewService();
    var cp := TestContactPoint().(uid := "generated-1");
    DefaultConfigFacts(cp.uid);
    CreatedTestConfig(cp.uid, ProvenanceFile);
    UpdateRefusesForeignProvenance(CreatedGroups(cp.uid), map[cp.uid := ProvenanceFile], cp, ProvenanceApi);
    var created := sut.CreateContactPoint(TestContactPoint(), ProvenanceFile, cp.uid);
    assert created == Ok(cp.(provenance := ProvenanceFile));
    var r := sut.UpdateContactPoint(cp, ProvenanceApi);
    assert r == Err(ErrProvenanceConflict(ProvenanceFile, ProvenanceApi));
  }

  method ScenarioConcurrencyToken()
  {
    var sut := NewService();
    DefaultConfigFacts("generated-1");
    CreateStoresUnderUid(DefaultConfig(), TestContactPoint(), "generated-1", ProvenanceApi);
    var _, expected := sut.amStore.GetLatestConfiguration();
    var created := sut.CreateContactPoint(TestContactPoint(), ProvenanceApi, "generated-1");
    assert sut.amStore.lastSaveCommand.Some?;
    assert sut.amStore.lastSaveCommand.value.fetchedConfigurationHash == expected;
  }
}
