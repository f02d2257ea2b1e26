/** The contact-point provisioning service: reads, creates and updates contact
    points inside the stored Alertmanager configuration, guarding who may
    overwrite whom through provenance tags. */
module Provisioning {
  import opened Definitions
  import opened Stitch

  datatype Error =
    | ErrValidation(reason: string)
    | ErrUidInUse(uid: string)
    | ErrNotFound(uid: string)
    | ErrProvenanceConflict(stored: Provenance, requested: Provenance)
    | ErrConcurrency

  datatype Result<T> = Ok(value: T) | Err(error: Error)

  /** What the API shows instead of a secret value, and what a caller sends back
      to mean "keep the stored value". */
  const RedactedValue: string := "[REDACTED]"

  // ---------------------------------------------------------------------------
  // Provenance guard
  // ---------------------------------------------------------------------------

  /** The provenance an object reads as: its tag, or ProvenanceNone when untagged. */
  function ProvenanceOf(provenances: map<string, Provenance>, uid: string): Provenance
  {
    if uid in provenances then provenances[uid] else ProvenanceNone
  }

  /** A write from `requested` may replace an object tagged `stored` only when
      the object is untagged or already belongs to that source. */
  predicate CanUpdateProvenance(stored: Provenance, requested: Provenance)
  {
    stored == ProvenanceNone || stored == requested
  }

  /** The transition table: anyone may claim an untagged object, a source may
      rewrite its own, and API and file provisioning may not take over each
      other's objects. */
  lemma ProvenanceTransitions(stored: Provenance, requested: Provenance)
    ensures stored == ProvenanceNone ==> CanUpdateProvenance(stored, requested)
    ensures CanUpdateProvenance(requested, requested)
    ensures !CanUpdateProvenance(ProvenanceFile, ProvenanceApi)
    ensures !CanUpdateProvenance(ProvenanceApi, ProvenanceFile)
    ensures CanUpdateProvenance(stored, requested) ==> stored == ProvenanceNone || stored == requested
  {
  }

  // ---------------------------------------------------------------------------
  // Validation and merging
  // ---------------------------------------------------------------------------

  /** A contact point may be stored only with a name, a type and a non-empty
      settings document. */
  predicate Valid(cp: EmbeddedContactPoint)
  {
    cp.name != "" && cp.kind != "" && cp.settings.Some? && |cp.settings.value| > 0
  }

  /** Settings sent on update, with every value the caller left redacted taken
      back from the stored settings. Keys the caller did not send are not added. */
  function MergeRedacted(incoming: Settings, stored: Settings): (r: Settings)
    ensures r.Keys == incoming.Keys
  {
    map k | k in incoming :: if incoming[k] == RedactedValue then (if k in stored then stored[k] else "") else incoming[k]
  }

  lemma MergeRedactedProperties(incoming: Settings, stored: Settings)
    ensures MergeRedacted(incoming, stored).Keys == incoming.Keys
    ensures forall k :: k in incoming && incoming[k] != RedactedValue ==> MergeRedacted(incoming, stored)[k] == incoming[k]
    ensures forall k :: k in incoming && incoming[k] == RedactedValue && k in stored ==>
      MergeRedacted(incoming, stored)[k] == stored[k]
  {
  }

  /** Settings sent entirely in clear are stored as sent. */
  lemma MergeKeepsClearSettings(incoming: Settings, stored: Settings)
    requires forall k :: k in incoming ==> incoming[k] != RedactedValue
    ensures MergeRedacted(incoming, stored) == incoming
  {
    MergeRedactedProperties(incoming, stored);
  }

  /** Handing back what the API showed, with some stored values redacted,
      restores the stored settings exactly. */
  lemma MergeRestoresRedactedView(stored: Settings, secret: set<string>)
    ensures MergeRedacted(map k | k in stored :: if k in secret then RedactedValue else stored[k], stored) == stored
  {
  }

  // ---------------------------------------------------------------------------
  // Reading
  // ---------------------------------------------------------------------------

  /** The API view of one stored receiver. */
  function View(r: GrafanaReceiver, provenances: map<string, Provenance>): EmbeddedContactPoint
  {
    EmbeddedContactPoint(r.uid, r.name, r.kind, r.disableResolveMessage, Some(r.settings), ProvenanceOf(provenances, r.uid))
  }

  function Views(rs: seq<GrafanaReceiver>, provenances: map<string, Provenance>): seq<EmbeddedContactPoint>
  {
    seq(|rs|, j requires 0 <= j < |rs| => View(rs[j], provenances))
  }

  /** What reading the contact points returns: every receiver of every group,
      in configuration order, with its provenance. */
  function ContactPoints(groups: seq<ReceiverGroup>, provenances: map<string, Provenance>): (r: seq<EmbeddedContactPoint>)
    ensures |r| == |AllReceivers(groups)|
    ensures forall j :: 0 <= j < |r| ==>
      var s := AllReceivers(groups)[j];
      r[j].uid == s.uid && r[j].name == s.name && r[j].kind == s.kind
      && r[j].disableResolveMessage == s.disableResolveMessage && r[j].settings == Some(s.settings)
      && r[j].provenance == ProvenanceOf(provenances, s.uid)
  {
    Views(AllReceivers(groups), provenances)
  }

  lemma {:induction false} AllReceiversAppend(groups: seq<ReceiverGroup>, g: ReceiverGroup)
    ensures AllReceivers(groups + [g]) == AllReceivers(groups) + g.receivers
  {
    if |groups| > 0 {
      assert (groups + [g])[1..] == groups[1..] + [g];
      AllReceiversAppend(groups[1..], g);
    }
  }

  /** The receivers of group `k` sit in the flattened list right after those of
      the groups before it. */
  lemma {:induction false} AllReceiversSplit(groups: seq<ReceiverGroup>, k: nat)
    requires k < |groups|
    ensures AllReceivers(groups) == AllReceivers(groups[..k]) + groups[k].receivers + AllReceivers(groups[k + 1..])
  {
    if k > 0 {
      AllReceiversSplit(groups[1..], k - 1);
      assert groups[1..][..k - 1] == groups[..k][1..];
      assert groups[1..][k - 1 + 1..] == groups[k + 1..];
    } else {
      assert groups[..0] == [];
    }
  }

  /** A uid is in the configuration exactly when it is in the flattened list. */
  lemma {:induction false} HasUidFlattened(groups: seq<ReceiverGroup>, uid: string)
    ensures HasUid(groups, uid) <==> exists j :: 0 <= j < |AllReceivers(groups)| && AllReceivers(groups)[j].uid == uid
  {
    if HasUid(groups, uid) {
      var g, i :| 0 <= g < |groups| && 0 <= i < |groups[g].receivers| && groups[g].receivers[i].uid == uid;
      AllReceiversSplit(groups, g);
      var j := |AllReceivers(groups[..g])| + i;
      assert AllReceivers(groups)[j] == groups[g].receivers[i];
    }
    if exists j :: 0 <= j < |AllReceivers(groups)| && AllReceivers(groups)[j].uid == uid {
      var j :| 0 <= j < |AllReceivers(groups)| && AllReceivers(groups)[j].uid == uid;
      HasUidFlattenedBack(groups, uid, j);
    }
  }

  lemma {:induction false} HasUidFlattenedBack(groups: seq<ReceiverGroup>, uid: string, j: nat)
    requires j < |AllReceivers(groups)| && AllReceivers(groups)[j].uid == uid
    ensures HasUid(groups, uid)
  {
    if j < |groups[0].receivers| {
      assert groups[0].receivers[j].uid == uid;
    } else {
      HasUidFlattenedBack(groups[1..], uid, j - |groups[0].receivers|);
      var g, i :| 0 <= g < |groups[1..]| && 0 <= i < |groups[1..][g].receivers| && groups[1..][g].receivers[i].uid == uid;
      assert groups[g + 1].receivers[i].uid == uid;
    }
  }

  /** An untagged contact point reads as ProvenanceNone. */
  lemma UntaggedReadsAsNone(groups: seq<ReceiverGroup>, provenances: map<string, Provenance>, j: nat)
    requires j < |ContactPoints(groups, provenances)|
    requires ContactPoints(groups, provenances)[j].uid !in provenances
    ensures ContactPoints(groups, provenances)[j].provenance == ProvenanceNone
  {
  }

  // ---------------------------------------------------------------------------
  // Creating
  // ---------------------------------------------------------------------------

  /** The groups with `r` added at the end of the group named like it, or in a
      new group appended at the end when there is none. */
  function AddReceiver(groups: seq<ReceiverGroup>, r: GrafanaReceiver): seq<ReceiverGroup>
  {
    match IndexOfGroup(groups, r.name, 0)
    case Some(k) => groups[k := groups[k].(receivers := groups[k].receivers + [r])]
    case None => groups + [ReceiverGroup(r.name, [r])]
  }

  /** The outcome of creating `cp` on behalf of `provenance`: the new receiver
      groups and the stored contact point, or the error. `generatedUid` stands
      for the uid the service makes up when the caller gives none. */
  function CreateOutcome(groups: seq<ReceiverGroup>, cp: EmbeddedContactPoint, generatedUid: string,
                         provenance: Provenance)
    : (r: Result<(seq<ReceiverGroup>, EmbeddedContactPoint)>)
    ensures r.Ok? <==> Valid(cp) && !HasUid(groups, if cp.uid == "" then generatedUid else cp.uid)
    ensures r.Ok? ==> r.value.1 == cp.(uid := if cp.uid == "" then generatedUid else cp.uid, provenance := provenance)
    ensures r.Err? && Valid(cp) ==> r.error == ErrUidInUse(if cp.uid == "" then generatedUid else cp.uid)
  {
    if !Valid(cp) then Err(ErrValidation("invalid contact point"))
    else
      var uid := if cp.uid == "" then generatedUid else cp.uid;
      if FindReceiver(groups, uid, 0).Some? then Err(ErrUidInUse(uid))
      else
        var r := GrafanaReceiver(uid, cp.name, cp.kind, cp.disableResolveMessage, cp.settings.value);
        Ok((AddReceiver(groups, r), cp.(uid := uid, provenance := provenance)))
  }

  /** Create fails validation when the type, the name or the settings are
      missing, and then changes nothing. */
  lemma CreateRejectsInvalid(groups: seq<ReceiverGroup>, cp: EmbeddedContactPoint, generatedUid: string,
                             provenance: Provenance)
    requires cp.kind == "" || cp.name == "" || cp.settings.None? || cp.settings == Some(map[])
    ensures CreateOutcome(groups, cp, generatedUid, provenance).Err?
    ensures CreateOutcome(groups, cp, generatedUid, provenance).error.ErrValidation?
  {
  }

  /** A valid contact point whose uid (the caller's, or the generated one when
      the caller gives none) is not in use is stored under that uid, in a group
      named like it; a caller-chosen uid is kept. */
  lemma CreateStoresUnderUid(groups: seq<ReceiverGroup>, cp: EmbeddedContactPoint, generatedUid: string,
                             provenance: Provenance)
    requires Valid(cp) && !HasUid(groups, if cp.uid == "" then generatedUid else cp.uid)
    ensures CreateOutcome(groups, cp, generatedUid, provenance).Ok?
    ensures var (groups', created) := CreateOutcome(groups, cp, generatedUid, provenance).value;
      && created == cp.(uid := if cp.uid == "" then generatedUid else cp.uid, provenance := provenance)
      && (cp.uid != "" ==> created.uid == cp.uid)
      && HasUid(groups', created.uid)
      && exists k, j :: 0 <= k < |groups'| && 0 <= j < |groups'[k].receivers| && groups'[k].name == cp.name
           && groups'[k].receivers[j] == GrafanaReceiver(created.uid, cp.name, cp.kind, cp.disableResolveMessage, cp.settings.value)
  {
    var uid := if cp.uid == "" then generatedUid else cp.uid;
    var (groups', created) := CreateOutcome(groups, cp, generatedUid, provenance).value;
    var r := GrafanaReceiver(uid, cp.name, cp.kind, cp.disableResolveMessage, cp.settings.value);
    match IndexOfGroup(groups, r.name, 0)
    case Some(k) =>
      assert groups'[k].receivers[|groups[k].receivers|] == r;
    case None =>
      assert groups'[|groups|].receivers[0] == r;
  }

  /** Creating keeps uids unique across the configuration. */
  lemma CreatePreservesUniqueUids(groups: seq<ReceiverGroup>, cp: EmbeddedContactPoint, generatedUid: string,
                                  provenance: Provenance)
    requires UniqueUids(groups)
    requires CreateOutcome(groups, cp, generatedUid, provenance).Ok?
    ensures UniqueUids(CreateOutcome(groups, cp, generatedUid, provenance).value.0)
  {
    var uid := if cp.uid == "" then generatedUid else cp.uid;
    var groups' := CreateOutcome(groups, cp, generatedUid, provenance).value.0;
    var r := GrafanaReceiver(uid, cp.name, cp.kind, cp.disableResolveMessage, cp.settings.value);
    assert !HasUid(groups, uid);
    match IndexOfGroup(groups, r.name, 0)
    case Some(k) =>
      forall g1, i1, g2, i2 |
        0 <= g1 < |groups'| && 0 <= i1 < |groups'[g1].receivers| &&
        0 <= g2 < |groups'| && 0 <= i2 < |groups'[g2].receivers| &&
        groups'[g1].receivers[i1].uid == groups'[g2].receivers[i2].uid
        ensures g1 == g2 && i1 == i2
      {
        var n := |groups[k].receivers|;
        var new1 := g1 == k && i1 == n;
        var new2 := g2 == k && i2 == n;
        if !new1 { assert groups'[g1].receivers[i1] == groups[g1].receivers[i1]; }
        if !new2 { assert groups'[g2].receivers[i2] == groups[g2].receivers[i2]; }
      }
    case None =>
      forall g1, i1, g2, i2 |
        0 <= g1 < |groups'| && 0 <= i1 < |groups'[g1].receivers| &&
        0 <= g2 < |groups'| && 0 <= i2 < |groups'[g2].receivers| &&
        groups'[g1].receivers[i1].uid == groups'[g2].receivers[i2].uid
        ensures g1 == g2 && i1 == i2
      {
        if g1 < |groups| { assert groups'[g1] == groups[g1]; }
        if g2 < |groups| { assert groups'[g2] == groups[g2]; }
      }
  }

  /** A uid already used by some receiver cannot be used again. */
  lemma CreateRejectsUsedUid(groups: seq<ReceiverGroup>, cp: EmbeddedContactPoint, generatedUid: string,
                             provenance: Provenance)
    requires Valid(cp) && cp.uid != "" && HasUid(groups, cp.uid)
    ensures CreateOutcome(groups, cp, generatedUid, provenance) == Err(ErrUidInUse(cp.uid))
  {
    var g, i :| 0 <= g < |groups| && 0 <= i < |groups[g].receivers| && groups[g].receivers[i].uid == cp.uid;
  }

  /** Creating the same contact point twice with a custom uid: the first call
      succeeds, the second is refused. */
  lemma CreateTwiceFails(groups: seq<ReceiverGroup>, cp: EmbeddedContactPoint, gen1: string, gen2: string,
                         provenance: Provenance)
    requires Valid(cp) && cp.uid != "" && !HasUid(groups, cp.uid)
    ensures CreateOutcome(groups, cp, gen1, provenance).Ok?
    ensures CreateOutcome(CreateOutcome(groups, cp, gen1, provenance).value.0, cp, gen2, provenance) == Err(ErrUidInUse(cp.uid))
  {
    CreateStoresUnderUid(groups, cp, gen1, provenance);
    CreateRejectsUsedUid(CreateOutcome(groups, cp, gen1, provenance).value.0, cp, gen2, provenance);
  }

  /** A contact point whose name no group has is listed after all existing
      contact points, which are listed as before. */
  lemma CreateAppendsContactPoint(groups: seq<ReceiverGroup>, provenances: map<string, Provenance>,
                                  cp: EmbeddedContactPoint, generatedUid: string, provenance: Provenance)
    requires CreateOutcome(groups, cp, generatedUid, provenance).Ok?
    requires forall k :: 0 <= k < |groups| ==> groups[k].name != cp.name
    ensures var (groups', created) := CreateOutcome(groups, cp, generatedUid, provenance).value;
      ContactPoints(groups', provenances[created.uid := provenance]) == ContactPoints(groups, provenances) + [created]
  {
    var (groups', created) := CreateOutcome(groups, cp, generatedUid, provenance).value;
    var uid := created.uid;
    var r := GrafanaReceiver(uid, cp.name, cp.kind, cp.disableResolveMessage, cp.settings.value);
    assert groups' == groups + [ReceiverGroup(r.name, [r])];
    AllReceiversAppend(groups, ReceiverGroup(r.name, [r]));
    var before := AllReceivers(groups);
    forall j | 0 <= j < |before|
      ensures before[j].uid != uid
    {
      if before[j].uid == uid {
        HasUidFlattened(groups, uid);
      }
    }
  }

  /** A contact point whose name an existing group has is appended to the end
      of that group; every other receiver and every other group stays as it was. */
  lemma CreateJoinsExistingGroup(groups: seq<ReceiverGroup>, cp: EmbeddedContactPoint, generatedUid: string,
                                 provenance: Provenance, k: nat)
    requires UniqueGroupNames(groups)
    requires CreateOutcome(groups, cp, generatedUid, provenance).Ok?
    requires k < |groups| && groups[k].name == cp.name
    ensures var (groups', created) := CreateOutcome(groups, cp, generatedUid, provenance).value;
      var r := GrafanaReceiver(created.uid, cp.name, cp.kind, cp.disableResolveMessage, cp.settings.value);
      groups' == groups[k := groups[k].(receivers := groups[k].receivers + [r])]
  {
    IndexOfGroupUnique(groups, k);
  }

  /** A contact point whose name no group has gets a group of its own,
      appended after all existing groups, which stay as they were. */
  lemma CreateAddsGroup(groups: seq<ReceiverGroup>, cp: EmbeddedContactPoint, generatedUid: string,
                        provenance: Provenance)
    requires CreateOutcome(groups, cp, generatedUid, provenance).Ok?
    requires forall k :: 0 <= k < |groups| ==> groups[k].name != cp.name
    ensures var (groups', created) := CreateOutcome(groups, cp, generatedUid, provenance).value;
      var r := GrafanaReceiver(created.uid, cp.name, cp.kind, cp.disableResolveMessage, cp.settings.value);
      groups' == groups + [ReceiverGroup(cp.name, [r])]
  {
  }

  /** Creating never makes two groups share a name. */
  lemma CreateKeepsGroupNamesUnique(groups: seq<ReceiverGroup>, cp: EmbeddedContactPoint, generatedUid: string,
                                    provenance: Provenance)
    requires UniqueGroupNames(groups)
    requires CreateOutcome(groups, cp, generatedUid, provenance).Ok?
    ensures UniqueGroupNames(CreateOutcome(groups, cp, generatedUid, provenance).value.0)
  {
    var groups' := CreateOutcome(groups, cp, generatedUid, provenance).value.0;
    match IndexOfGroup(groups, cp.name, 0)
    case Some(k) =>
      SameNamesUnique(groups, groups');
    case None =>
      forall a, b | 0 <= a < b < |groups'|
        ensures groups'[a].name != groups'[b].name
      {
        if b < |groups| { assert groups'[a] == groups[a] && groups'[b] == groups[b]; }
        else { assert groups'[a] == groups[a]; }
      }
  }

  /** Creating keeps consistently named groups consistent: the new receiver
      goes into a group carrying its name. */
  lemma CreateKeepsConsistent(groups: seq<ReceiverGroup>, cp: EmbeddedContactPoint, generatedUid: string,
                              provenance: Provenance)
    requires Consistent(groups)
    requires CreateOutcome(groups, cp, generatedUid, provenance).Ok?
    ensures Consistent(CreateOutcome(groups, cp, generatedUid, provenance).value.0)
  {
    var groups' := CreateOutcome(groups, cp, generatedUid, provenance).value.0;
    match IndexOfGroup(groups, cp.name, 0)
    case Some(k) =>
      assert ConsistentGroup(groups'[k]);
    case None =>
      forall m | 0 <= m < |groups'|
        ensures ConsistentGroup(groups'[m])
      {
        if m < |groups| { assert groups'[m] == groups[m]; }
      }
  }

  // ---------------------------------------------------------------------------
  // Updating
  // ---------------------------------------------------------------------------

  /** The outcome of updating the contact point `cp.uid` to `cp` on behalf of
      `provenance`: the new receiver groups, or the error. */
  function UpdateOutcome(groups: seq<ReceiverGroup>, provenances: map<string, Provenance>,
                         cp: EmbeddedContactPoint, provenance: Provenance): (r: Result<seq<ReceiverGroup>>)
    ensures r.Ok? ==> cp.name != "" && cp.kind != "" && cp.settings.Some? && |cp.settings.value| > 0
    ensures r.Ok? ==> HasUid(groups, cp.uid) && CanUpdateProvenance(ProvenanceOf(provenances, cp.uid), provenance)
  {
    if cp.settings.None? then Err(ErrValidation("settings should not be empty"))
    else match FindReceiver(groups, cp.uid, 0)
      case None => Err(ErrNotFound(cp.uid))
      case Some(loc) =>
        var stored := groups[loc.group].receivers[loc.index];
        var merged := cp.(settings := Some(MergeRedacted(cp.settings.value, stored.settings)));
        if !Valid(merged) then Err(ErrValidation("invalid contact point"))
        else if !CanUpdateProvenance(ProvenanceOf(provenances, cp.uid), provenance) then
          Err(ErrProvenanceConflict(ProvenanceOf(provenances, cp.uid), provenance))
        else
          Ok(Stitched(groups, GrafanaReceiver(cp.uid, cp.name, cp.kind, cp.disableResolveMessage, merged.settings.value)))
  }

  /** Update with no settings, with no type, or with settings that are empty
      after merging fails validation. */
  lemma UpdateRejectsInvalid(groups: seq<ReceiverGroup>, provenances: map<string, Provenance>,
                             cp: EmbeddedContactPoint, provenance: Provenance)
    requires cp.settings.None? || (HasUid(groups, cp.uid) && (cp.kind == "" || cp.settings == Some(map[])))
    ensures UpdateOutcome(groups, provenances, cp, provenance).Err?
    ensures UpdateOutcome(groups, provenances, cp, provenance).error.ErrValidation?
  {
    if cp.settings.Some? {
      var g, i :| 0 <= g < |groups| && 0 <= i < |groups[g].receivers| && groups[g].receivers[i].uid == cp.uid;
    }
  }

  /** Update of a uid that no receiver has reports it as not found. */
  lemma UpdateUnknownUid(groups: seq<ReceiverGroup>, provenances: map<string, Provenance>,
                         cp: EmbeddedContactPoint, provenance: Provenance)
    requires cp.settings.Some? && !HasUid(groups, cp.uid)
    ensures UpdateOutcome(groups, provenances, cp, provenance) == Err(ErrNotFound(cp.uid))
  {
  }

  /** A contact point tagged by one of API and file provisioning cannot be
      updated by the other: a valid update is refused with a provenance conflict. */
  lemma UpdateRefusesForeignProvenance(groups: seq<ReceiverGroup>, provenances: map<string, Provenance>,
                                       cp: EmbeddedContactPoint, provenance: Provenance)
    requires Valid(cp)
    requires HasUid(groups, cp.uid)
    requires ProvenanceOf(provenances, cp.uid) != ProvenanceNone && ProvenanceOf(provenances, cp.uid) != provenance
    ensures UpdateOutcome(groups, provenances, cp, provenance) ==
      Err(ErrProvenanceConflict(ProvenanceOf(provenances, cp.uid), provenance))
  {
    var g, i :| 0 <= g < |groups| && 0 <= i < |groups[g].receivers| && groups[g].receivers[i].uid == cp.uid;
    var loc := FindReceiver(groups, cp.uid, 0).value;
    var stored := groups[loc.group].receivers[loc.index];
    var merged := MergeRedacted(cp.settings.value, stored.settings);
    assert |merged| == |cp.settings.value|;
  }

  /** A valid update of an untagged contact point (or one the same source owns)
      succeeds and stitches into the groups the receiver with the sent fields
      and the sent settings, redacted values taken back from the stored
      receiver `groups[g].receivers[i]`. */
  lemma UpdateAcceptsOwnOrUntagged(groups: seq<ReceiverGroup>, provenances: map<string, Provenance>,
                                   cp: EmbeddedContactPoint, provenance: Provenance, g: nat, i: nat)
    requires UniqueUids(groups)
    requires Valid(cp)
    requires g < |groups| && i < |groups[g].receivers| && groups[g].receivers[i].uid == cp.uid
    requires ProvenanceOf(provenances, cp.uid) == ProvenanceNone || ProvenanceOf(provenances, cp.uid) == provenance
    ensures UpdateOutcome(groups, provenances, cp, provenance) ==
      Ok(Stitched(groups, GrafanaReceiver(cp.uid, cp.name, cp.kind, cp.disableResolveMessage,
                                          MergeRedacted(cp.settings.value, groups[g].receivers[i].settings))))
  {
    FindUnique(groups, g, i);
    var merged := MergeRedacted(cp.settings.value, groups[g].receivers[i].settings);
    assert |merged| == |cp.settings.value|;
  }

  /** Updating keeps uids unique across the configuration. */
  lemma UpdatePreservesUniqueUids(groups: seq<ReceiverGroup>, provenances: map<string, Provenance>,
                                  cp: EmbeddedContactPoint, provenance: Provenance)
    requires UniqueUids(groups)
    requires UpdateOutcome(groups, provenances, cp, provenance).Ok?
    ensures UniqueUids(UpdateOutcome(groups, provenances, cp, provenance).value)
  {
    var loc := FindReceiver(groups, cp.uid, 0).value;
    var stored := groups[loc.group].receivers[loc.index];
    var settings := MergeRedacted(cp.settings.value, stored.settings);
    StitchPreservesUniqueUids(groups, GrafanaReceiver(cp.uid, cp.name, cp.kind, cp.disableResolveMessage, settings));
  }

  // ---------------------------------------------------------------------------
  // The stores and the service
  // ---------------------------------------------------------------------------

  /** What a save hands to the configuration store: the new groups and the
      hash of the configuration they were computed from. */
  datatype SaveCommand = SaveCommand(configuration: seq<ReceiverGroup>, fetchedConfigurationHash: nat)

  /** The in-memory Alertmanager configuration store. The hash is an opaque
      token; here every accepted save moves it to a new value. */
  class AlertmanagerConfigStore {
    var receivers: seq<ReceiverGroup>
    var configurationHash: nat
    var lastSaveCommand: Option<SaveCommand>

    constructor (receivers: seq<ReceiverGroup>, configurationHash: nat)
      ensures this.receivers == receivers && this.configurationHash == configurationHash
      ensures lastSaveCommand == None
    {
      this.receivers := receivers;
      this.configurationHash := configurationHash;
      this.lastSaveCommand := None;
    }

    method GetLatestConfiguration() returns (groups: seq<ReceiverGroup>, hash: nat)
      ensures groups == receivers && hash == configurationHash
    {
      groups, hash := receivers, configurationHash;
    }

    /** Records the command; accepts it only when it was computed from the
        configuration that is stored now. */
    method UpdateConfiguration(cmd: SaveCommand) returns (r: Result<()>)
      modifies this
      ensures lastSaveCommand == Some(cmd)
      ensures r.Ok? <==> cmd.fetchedConfigurationHash == old(configurationHash)
      ensures r.Err? ==> r.error == ErrConcurrency
      ensures r.Ok? ==> receivers == cmd.configuration && configurationHash == old(configurationHash) + 1
      ensures r.Err? ==> receivers == old(receivers) && configurationHash == old(configurationHash)
    {
      lastSaveCommand := Some(cmd);
      if cmd.fetchedConfigurationHash != configurationHash {
        return Err(ErrConcurrency);
      }
      receivers := cmd.configuration;
      configurationHash := configurationHash + 1;
      return Ok(());
    }
  }

  /** The in-memory provenance store, keyed by contact-point uid. */
  class ProvisioningStore {
    var provenances: map<string, Provenance>

    constructor (provenances: map<string, Provenance>)
      ensures this.provenances == provenances
    {
      this.provenances := provenances;
    }

    method GetProvenance(uid: string) returns (p: Provenance)
      ensures p == ProvenanceOf(provenances, uid)
      ensures uid !in provenances ==> p == ProvenanceNone
    {
      p := if uid in provenances then provenances[uid] else ProvenanceNone;
    }

    method SetProvenance(uid: string, p: Provenance)
      modifies this
      ensures provenances == old(provenances)[uid := p]
    {
      provenances := provenances[uid := p];
    }
  }

  class ContactPointService {
    const amStore: AlertmanagerConfigStore
    const provenanceStore: ProvisioningStore

    constructor (amStore: AlertmanagerConfigStore, provenanceStore: ProvisioningStore)
      ensures this.amStore == amStore && this.provenanceStore == provenanceStore
    {
      this.amStore := amStore;
      this.provenanceStore := provenanceStore;
    }

    /** All contact points of the configuration, in order, with their provenance. */
    method GetContactPoints() returns (cps: seq<EmbeddedContactPoint>)
      ensures cps == ContactPoints(amStore.receivers, provenanceStore.provenances)
    {
      var groups, _ := amStore.GetLatestConfiguration();
      var provenances := provenanceStore.provenances;
      cps := [];
      var g := 0;
      while g < |groups|
        invariant 0 <= g <= |groups|
        invariant cps == ContactPoints(groups[..g], provenances)
      {
        var rs := groups[g].receivers;
        var i := 0;
        while i < |rs|
          invariant 0 <= i <= |rs|
          invariant cps == ContactPoints(groups[..g], provenances) + Views(rs[..i], provenances)
        {
          cps := cps + [View(rs[i], provenances)];
          i := i + 1;
        }
        assert rs[..i] == rs;
        assert groups[..g + 1] == groups[..g] + [groups[g]];
        AllReceiversAppend(groups[..g], groups[g]);
        g := g + 1;
      }
      assert groups[..g] == groups;
    }

    /** Create `cp` on behalf of `provenance`; `generatedUid` is the uid to use
        when the caller gives none. */
    method CreateContactPoint(cp: EmbeddedContactPoint, provenance: Provenance, generatedUid: string)
      returns (r: Result<EmbeddedContactPoint>)
      modifies amStore, provenanceStore
      ensures match CreateOutcome(old(amStore.receivers), cp, generatedUid, provenance)
        case Err(e) =>
          r == Err(e) && amStore.receivers == old(amStore.receivers)
          && amStore.configurationHash == old(amStore.configurationHash)
          && amStore.lastSaveCommand == old(amStore.lastSaveCommand)
          && provenanceStore.provenances == old(provenanceStore.provenances)
        case Ok((groups, created)) =>
          r == Ok(created) && amStore.receivers == groups
          && amStore.lastSaveCommand == Some(SaveCommand(groups, old(amStore.configurationHash)))
          && amStore.configurationHash == old(amStore.configurationHash) + 1
          && provenanceStore.provenances == old(provenanceStore.provenances)[created.uid := provenance]
    {
      ghost var outcome := CreateOutcome(amStore.receivers, cp, generatedUid, provenance);
      if !Valid(cp) {
        return Err(ErrValidation("invalid contact point"));
      }
      var groups, hash := amStore.GetLatestConfiguration();
      var uid := if cp.uid == "" then generatedUid else cp.uid;
      var existing := LocateReceiver(groups, uid);
      if existing.Some? {
        assert outcome == Err(ErrUidInUse(uid));
        return Err(ErrUidInUse(uid));
      }
      var receiver := GrafanaReceiver(uid, cp.name, cp.kind, cp.disableResolveMessage, cp.settings.value);
      var k := LocateGroup(groups, cp.name);
      if k.Some? {
        groups := groups[k.value := groups[k.value].(receivers := groups[k.value].receivers + [receiver])];
      } else {
        groups := groups + [ReceiverGroup(cp.name, [receiver])];
      }
      var created := cp.(uid := uid, provenance := provenance);
      assert outcome == Ok((groups, created));
      var saved := amStore.UpdateConfiguration(SaveCommand(groups, hash));
      assert saved.Ok?;
      provenanceStore.SetProvenance(uid, provenance);
      r := Ok(created);
    }

    /** Update the contact point `cp.uid` to `cp` on behalf of `provenance`. */
    method UpdateContactPoint(cp: EmbeddedContactPoint, provenance: Provenance) returns (r: Result<()>)
      modifies amStore, provenanceStore
      ensures match UpdateOutcome(old(amStore.receivers), old(provenanceStore.provenances), cp, provenance)
        case Err(e) =>
          r == Err(e) && amStore.receivers == old(amStore.receivers)
          && amStore.configurationHash == old(amStore.configurationHash)
          && amStore.lastSaveCommand == old(amStore.lastSaveCommand)
          && provenanceStore.provenances == old(provenanceStore.provenances)
        case Ok(groups) =>
          r == Ok(()) && amStore.receivers == groups
          && amStore.lastSaveCommand == Some(SaveCommand(groups, old(amStore.configurationHash)))
          && amStore.configurationHash == old(amStore.configurationHash) + 1
          && provenanceStore.provenances == old(provenanceStore.provenances)[cp.uid := provenance]
    {
      ghost var outcome := UpdateOutcome(amStore.receivers, provenanceStore.provenances, cp, provenance);
      if cp.settings.None? {
        return Err(ErrValidation("settings should not be empty"));
      }
      var groups, hash := amStore.GetLatestConfiguration();
      var loc := LocateReceiver(groups, cp.uid);
      if loc.None? {
        assert outcome == Err(ErrNotFound(cp.uid));
        return Err(ErrNotFound(cp.uid));
      }
      var stored := groups[loc.value.group].receivers[loc.value.index];
      var settings := MergeRedacted(cp.settings.value, stored.settings);
      if !Valid(cp.(settings := Some(settings))) {
        assert outcome == Err(ErrValidation("invalid contact point"));
        return Err(ErrValidation("invalid contact point"));
      }
      var current := provenanceStore.GetProvenance(cp.uid);
      if !(current == ProvenanceNone || current == provenance) {
        assert outcome == Err(ErrProvenanceConflict(current, provenance));
        return Err(ErrProvenanceConflict(current, provenance));
      }
      var target := GrafanaReceiver(cp.uid, cp.name, cp.kind, cp.disableResolveMessage, settings);
      assert outcome == Ok(Stitched(groups, target));
      var cfg := new UserConfig(groups);
      var modified := StitchReceiver(cfg, target);
      var saved := amStore.UpdateConfiguration(SaveCommand(cfg.receivers, hash));
      assert saved.Ok?;
      provenanceStore.SetProvenance(cp.uid, provenance);
      r := Ok(());
    }
  }
}
