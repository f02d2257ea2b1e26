/** Stitching one updated receiver back into the receiver groups of a
    configuration, keeping every group's members under the group's name. */
module Stitch {
  import opened Definitions

  /** Position of a receiver: the group, and the index inside that group. */
  datatype Location = Location(group: nat, index: nat)

  // ---------------------------------------------------------------------------
  // Searching
  // ---------------------------------------------------------------------------

  /** The first index at or after `from` whose receiver has this uid. */
  function IndexOfUid(rs: seq<GrafanaReceiver>, uid: string, from: nat): (r: Option<nat>)
    decreases |rs| - from
    ensures r.Some? ==> from <= r.value < |rs| && rs[r.value].uid == uid
    ensures r.Some? ==> forall j :: from <= j < r.value ==> rs[j].uid != uid
    ensures r.None? ==> forall j :: from <= j < |rs| ==> rs[j].uid != uid
  {
    if from >= |rs| then None
    else if rs[from].uid == uid then Some(from)
    else IndexOfUid(rs, uid, from + 1)
  }

  /** The first receiver with this uid, scanning the groups from `from` on in
      order and each group's receivers in order. */
  function FindReceiver(groups: seq<ReceiverGroup>, uid: string, from: nat): (r: Option<Location>)
    decreases |groups| - from
    ensures r.Some? ==>
      from <= r.value.group < |groups| && r.value.index < |groups[r.value.group].receivers|
      && groups[r.value.group].receivers[r.value.index].uid == uid
    ensures r.Some? ==> forall g, i :: from <= g < r.value.group && 0 <= i < |groups[g].receivers| ==>
      groups[g].receivers[i].uid != uid
    ensures r.Some? ==> forall i :: 0 <= i < r.value.index ==> groups[r.value.group].receivers[i].uid != uid
    ensures r.None? ==> forall g, i :: from <= g < |groups| && 0 <= i < |groups[g].receivers| ==>
      groups[g].receivers[i].uid != uid
  {
    if from >= |groups| then None
    else match IndexOfUid(groups[from].receivers, uid, 0)
      case Some(i) => Some(Location(from, i))
      case None => FindReceiver(groups, uid, from + 1)
  }

  /** The first group at or after `from` with this name. */
  function IndexOfGroup(groups: seq<ReceiverGroup>, name: string, from: nat): (r: Option<nat>)
    decreases |groups| - from
    ensures r.Some? ==> from <= r.value < |groups| && groups[r.value].name == name
    ensures r.Some? ==> forall k :: from <= k < r.value ==> groups[k].name != name
    ensures r.None? ==> forall k :: from <= k < |groups| ==> groups[k].name != name
  {
    if from >= |groups| then None
    else if groups[from].name == name then Some(from)
    else IndexOfGroup(groups, name, from + 1)
  }

  /** With uids unique, the search finds exactly the receiver that has the uid. */
  lemma FindUnique(groups: seq<ReceiverGroup>, g: nat, i: nat)
    requires UniqueUids(groups)
    requires g < |groups| && i < |groups[g].receivers|
    ensures FindReceiver(groups, groups[g].receivers[i].uid, 0) == Some(Location(g, i))
  {
  }

  /** With group names unique, the search finds exactly the group that has the name. */
  lemma IndexOfGroupUnique(groups: seq<ReceiverGroup>, k: nat)
    requires UniqueGroupNames(groups)
    requires k < |groups|
    ensures IndexOfGroup(groups, groups[k].name, 0) == Some(k)
  {
  }

  // ---------------------------------------------------------------------------
  // The stitching rule
  // ---------------------------------------------------------------------------

  /** The receivers with their names forced to `name` (the repair step). */
  function Renamed(rs: seq<GrafanaReceiver>, name: string): seq<GrafanaReceiver>
  {
    seq(|rs|, j requires 0 <= j < |rs| => rs[j].(name := name))
  }

  /** The sequence without its element at `i`. */
  function Without<T>(s: seq<T>, i: nat): seq<T>
    requires i < |s|
  {
    s[..i] + s[i + 1..]
  }

  /** The receiver groups after `target` replaces the receiver with its uid.
      - No receiver has the uid: nothing changes.
      - The receiver's group already has the target's name: the receiver is
        replaced where it stands, and the group's members are renamed to the
        group's name.
      - Otherwise the receiver leaves its group; the members left behind are
        renamed to their group's name. The target joins the end of the group
        named like it, if there is one; if there is none, a group that had the
        receiver as its only member is renamed where it stands, and otherwise a
        new single-member group is appended. A group left empty is removed.
      So at most one group appears or disappears. */
  function Stitched(groups: seq<ReceiverGroup>, target: GrafanaReceiver): (r: seq<ReceiverGroup>)
    ensures |groups| - 1 <= |r| <= |groups| + 1
  {
    match FindReceiver(groups, target.uid, 0)
    case None => groups
    case Some(loc) =>
      var source := groups[loc.group];
      if source.name == target.name then
        groups[loc.group := ReceiverGroup(source.name, Renamed(source.receivers[loc.index := target], source.name))]
      else
        var remaining := Renamed(Without(source.receivers, loc.index), source.name);
        match IndexOfGroup(groups, target.name, 0)
        case Some(k) =>
          var joined := groups[k := groups[k].(receivers := groups[k].receivers + [target])];
          if |source.receivers| == 1 then Without(joined, loc.group)
          else joined[loc.group := ReceiverGroup(source.name, remaining)]
        case None =>
          if |source.receivers| == 1 then groups[loc.group := ReceiverGroup(target.name, [target])]
          else groups[loc.group := ReceiverGroup(source.name, remaining)] + [ReceiverGroup(target.name, [target])]
  }

  // ---------------------------------------------------------------------------
  // Properties of the rule
  // ---------------------------------------------------------------------------

  /** A uid that no receiver has leaves the groups exactly as they were. */
  lemma StitchUnknownUid(groups: seq<ReceiverGroup>, target: GrafanaReceiver)
    requires !HasUid(groups, target.uid)
    ensures Stitched(groups, target) == groups
  {
  }

  /** An update that keeps the group's name replaces the receiver at its index
      and renames the group's other members to the group's name; every other
      group stays as it was. On a consistently named group only the receiver
      itself changes. */
  lemma StitchReplacesInPlace(groups: seq<ReceiverGroup>, target: GrafanaReceiver, g: nat, i: nat)
    requires UniqueUids(groups)
    requires g < |groups| && i < |groups[g].receivers|
    requires groups[g].receivers[i].uid == target.uid
    requires groups[g].name == target.name
    ensures Stitched(groups, target) ==
      groups[g := ReceiverGroup(groups[g].name, Renamed(groups[g].receivers[i := target], groups[g].name))]
    ensures ConsistentGroup(Stitched(groups, target)[g])
    ensures ConsistentGroup(groups[g]) ==>
      Stitched(groups, target) == groups[g := groups[g].(receivers := groups[g].receivers[i := target])]
  {
    FindUnique(groups, g, i);
    if ConsistentGroup(groups[g]) {
      RenamedConsistent(groups[g].receivers[i := target], groups[g].name);
    }
  }

  /** Renaming the only receiver of a group to a name no group has renames the
      group where it stands: same position, same number of groups. */
  lemma StitchRenamesSoleGroup(groups: seq<ReceiverGroup>, target: GrafanaReceiver, g: nat)
    requires UniqueUids(groups)
    requires g < |groups| && |groups[g].receivers| == 1
    requires groups[g].receivers[0].uid == target.uid
    requires forall k :: 0 <= k < |groups| ==> groups[k].name != target.name
    ensures Stitched(groups, target) == groups[g := ReceiverGroup(target.name, [target])]
  {
    FindUnique(groups, g, 0);
  }

  /** Renaming a receiver to the name of another group moves it to the end of
      that group; the group it left keeps its position and its other members
      (renamed to the group's name), or disappears if it is left empty. */
  lemma StitchMovesToExistingGroup(groups: seq<ReceiverGroup>, target: GrafanaReceiver, g: nat, i: nat, k: nat)
    requires UniqueUids(groups) && UniqueGroupNames(groups)
    requires g < |groups| && i < |groups[g].receivers|
    requires groups[g].receivers[i].uid == target.uid
    requires k < |groups| && groups[k].name == target.name && k != g
    ensures
      var joined := groups[k := groups[k].(receivers := groups[k].receivers + [target])];
      Stitched(groups, target) ==
        if |groups[g].receivers| == 1 then Without(joined, g)
        else joined[g := ReceiverGroup(groups[g].name, Renamed(Without(groups[g].receivers, i), groups[g].name))]
  {
    FindUnique(groups, g, i);
    IndexOfGroupUnique(groups, k);
  }

  /** Renaming a receiver that has siblings to a name no group has moves it into
      exactly one new group, appended after all existing groups. */
  lemma StitchMovesToNewGroup(groups: seq<ReceiverGroup>, target: GrafanaReceiver, g: nat, i: nat)
    requires UniqueUids(groups)
    requires g < |groups| && i < |groups[g].receivers| && |groups[g].receivers| > 1
    requires groups[g].receivers[i].uid == target.uid
    requires forall k :: 0 <= k < |groups| ==> groups[k].name != target.name
    ensures
      var left := ReceiverGroup(groups[g].name, Renamed(Without(groups[g].receivers, i), groups[g].name));
      Stitched(groups, target) == groups[g := left] + [ReceiverGroup(target.name, [target])]
  {
    FindUnique(groups, g, i);
  }

  /** Renaming forces the remaining members of a consistently named group to
      keep their names: the forced rename is the identity there. */
  lemma RenamedConsistent(rs: seq<GrafanaReceiver>, name: string)
    requires forall j :: 0 <= j < |rs| ==> rs[j].name == name
    ensures Renamed(rs, name) == rs
  {
  }

  /** Whenever the receiver is found, the target ends up in a group that
      carries the target's name. */
  lemma StitchPlacesTarget(groups: seq<ReceiverGroup>, target: GrafanaReceiver)
    requires HasUid(groups, target.uid)
    ensures var r := Stitched(groups, target);
      exists k, j :: 0 <= k < |r| && 0 <= j < |r[k].receivers| && r[k].receivers[j] == target && r[k].name == target.name
  {
    var r := Stitched(groups, target);
    var loc := FindReceiver(groups, target.uid, 0);
    var g, i := loc.value.group, loc.value.index;
    var source := groups[g];
    if source.name == target.name {
      assert r[g].receivers[i] == target;
    } else {
      match IndexOfGroup(groups, target.name, 0)
      case Some(k) =>
        var n := |groups[k].receivers|;
        if |source.receivers| == 1 {
          var k' := if k < g then k else k - 1;
          assert r[k'].receivers[n] == target;
        } else {
          assert r[k].receivers[n] == target;
        }
      case None =>
        if |source.receivers| == 1 {
          assert r[g].receivers[0] == target;
        } else {
          assert r[|groups|].receivers[0] == target;
        }
    }
  }

  /** Self-repair: when a receiver with siblings is renamed out of its group,
      every member left behind carries the group's name afterwards, however its
      members were named before. */
  lemma StitchHealsSourceGroup(groups: seq<ReceiverGroup>, target: GrafanaReceiver, g: nat, i: nat)
    requires UniqueUids(groups)
    requires g < |groups| && i < |groups[g].receivers| && |groups[g].receivers| > 1
    requires groups[g].receivers[i].uid == target.uid
    requires groups[g].name != target.name
    ensures var r := Stitched(groups, target);
      g < |r| && r[g].name == groups[g].name && ConsistentGroup(r[g])
      && |r[g].receivers| == |groups[g].receivers| - 1
  {
    FindUnique(groups, g, i);
  }

  /** Under unique uids, every group but the one holding the uid is one of
      the groups that do not hold it. */
  lemma OthersConsistent(groups: seq<ReceiverGroup>, target: GrafanaReceiver, g: nat, i: nat)
    requires UniqueUids(groups)
    requires g < |groups| && i < |groups[g].receivers| && groups[g].receivers[i].uid == target.uid
    requires forall k :: 0 <= k < |groups| && IndexOfUid(groups[k].receivers, target.uid, 0).None? ==>
      ConsistentGroup(groups[k])
    ensures forall k :: 0 <= k < |groups| && k != g ==> ConsistentGroup(groups[k])
  {
    forall k | 0 <= k < |groups| && k != g
      ensures ConsistentGroup(groups[k])
    {
      var j := IndexOfUid(groups[k].receivers, target.uid, 0);
      if j.Some? {
        assert false;
      }
    }
  }

  /** If every group that does not hold the updated uid was consistently named,
      then after stitching every receiver of every group carries its group's
      name: the group the receiver is found in is repaired, however its members
      were named before. */
  lemma StitchRestoresConsistency(groups: seq<ReceiverGroup>, target: GrafanaReceiver)
    requires UniqueUids(groups)
    requires forall k :: 0 <= k < |groups| && IndexOfUid(groups[k].receivers, target.uid, 0).None? ==>
      ConsistentGroup(groups[k])
    ensures Consistent(Stitched(groups, target))
  {
    var r := Stitched(groups, target);
    var loc := FindReceiver(groups, target.uid, 0);
    if loc.None? {
      forall k | 0 <= k < |groups|
        ensures ConsistentGroup(groups[k])
      {
        var j := IndexOfUid(groups[k].receivers, target.uid, 0);
        if j.Some? {
          assert false;
        }
      }
      return;
    }
    var g, i := loc.value.group, loc.value.index;
    FindUnique(groups, g, i);
    var source := groups[g];
    OthersConsistent(groups, target, g, i);
    if source.name == target.name {
      assert ConsistentGroup(r[g]);
    } else {
      match IndexOfGroup(groups, target.name, 0)
      case Some(k) =>
        JoinedConsistent(groups, target, g, k);
      case None =>
    }
  }

  /** The case of the repair where the target joins group `k`: the groups other
      than the source `g` were consistent, `k` stays so, and `g` is repaired or removed. */
  lemma JoinedConsistent(groups: seq<ReceiverGroup>, target: GrafanaReceiver, g: nat, k: nat)
    requires g < |groups| && k < |groups| && k != g && groups[k].name == target.name
    requires forall m :: 0 <= m < |groups| && m != g ==> ConsistentGroup(groups[m])
    ensures var joined := groups[k := groups[k].(receivers := groups[k].receivers + [target])];
      Consistent(Without(joined, g))
      && forall i :: 0 <= i < |groups[g].receivers| ==>
        Consistent(joined[g := ReceiverGroup(groups[g].name, Renamed(Without(groups[g].receivers, i), groups[g].name))])
  {
    var joined := groups[k := groups[k].(receivers := groups[k].receivers + [target])];
    assert ConsistentGroup(joined[k]);
    assert forall m :: 0 <= m < |joined| && m != g ==> ConsistentGroup(joined[m]);
    var r := Without(joined, g);
    forall m | 0 <= m < |r|
      ensures ConsistentGroup(r[m])
    {
      if m < g { assert r[m] == joined[m]; } else { assert r[m] == joined[m + 1]; }
    }
  }

  /** Groups renamed position by position to the same names keep names unique. */
  lemma SameNamesUnique(groups: seq<ReceiverGroup>, r: seq<ReceiverGroup>)
    requires UniqueGroupNames(groups) && |r| == |groups|
    requires forall m :: 0 <= m < |r| ==> r[m].name == groups[m].name
    ensures UniqueGroupNames(r)
  {
  }

  /** Removing a group keeps the remaining names unique. */
  lemma WithoutNamesUnique(groups: seq<ReceiverGroup>, g: nat)
    requires UniqueGroupNames(groups) && g < |groups|
    ensures UniqueGroupNames(Without(groups, g))
  {
    var r := Without(groups, g);
    forall a, b | 0 <= a < b < |r|
      ensures r[a].name != r[b].name
    {
      var a' := if a < g then a else a + 1;
      var b' := if b < g then b else b + 1;
      assert r[a] == groups[a'] && r[b] == groups[b'];
    }
  }

  /** A name no group has can be given to one group, or to a group appended at the end. */
  lemma FreshNameUnique(groups: seq<ReceiverGroup>, g: nat, ng: ReceiverGroup)
    requires UniqueGroupNames(groups) && g < |groups|
    requires forall k :: 0 <= k < |groups| ==> groups[k].name != ng.name
    ensures UniqueGroupNames(groups[g := ng])
    ensures UniqueGroupNames(groups + [ng])
  {
  }

  /** Stitching never makes two groups share a name. */
  lemma StitchKeepsGroupNamesUnique(groups: seq<ReceiverGroup>, target: GrafanaReceiver)
    requires UniqueGroupNames(groups)
    ensures UniqueGroupNames(Stitched(groups, target))
  {
    var loc := FindReceiver(groups, target.uid, 0);
    if loc.None? { return; }
    var g, i := loc.value.group, loc.value.index;
    var source := groups[g];
    if source.name == target.name {
      SameNamesUnique(groups, groups[g := ReceiverGroup(source.name, Renamed(source.receivers[i := target], source.name))]);
      return;
    }
    var left := ReceiverGroup(source.name, Renamed(Without(source.receivers, i), source.name));
    match IndexOfGroup(groups, target.name, 0)
    case Some(k) =>
      var joined := groups[k := groups[k].(receivers := groups[k].receivers + [target])];
      SameNamesUnique(groups, joined);
      if |source.receivers| == 1 {
        WithoutNamesUnique(joined, g);
      } else {
        SameNamesUnique(joined, joined[g := left]);
      }
    case None =>
      if |source.receivers| == 1 {
        FreshNameUnique(groups, g, ReceiverGroup(target.name, [target]));
      } else {
        SameNamesUnique(groups, groups[g := left]);
        FreshNameUnique(groups[g := left], g, ReceiverGroup(target.name, [target]));
      }
  }

  /** No two receivers of the sequence share a uid. */
  ghost predicate DistinctUids(rs: seq<GrafanaReceiver>)
  {
    forall a, b :: 0 <= a < |rs| && 0 <= b < |rs| && rs[a].uid == rs[b].uid ==> a == b
  }

  /** Replacing group `g` by a group whose uids are distinct and used by no
      other group keeps uids unique. */
  lemma SetGroupUnique(groups: seq<ReceiverGroup>, g: nat, ng: ReceiverGroup)
    requires UniqueUids(groups) && g < |groups| && DistinctUids(ng.receivers)
    requires forall j, h, i :: 0 <= j < |ng.receivers| && 0 <= h < |groups| && h != g && 0 <= i < |groups[h].receivers| ==>
      ng.receivers[j].uid != groups[h].receivers[i].uid
    ensures UniqueUids(groups[g := ng])
  {
    var r := groups[g := ng];
    forall g1, i1, g2, i2 |
      0 <= g1 < |r| && 0 <= i1 < |r[g1].receivers| &&
      0 <= g2 < |r| && 0 <= i2 < |r[g2].receivers| &&
      r[g1].receivers[i1].uid == r[g2].receivers[i2].uid
      ensures g1 == g2 && i1 == i2
    {
      if g1 != g { assert r[g1] == groups[g1]; }
      if g2 != g { assert r[g2] == groups[g2]; }
    }
  }

  /** Appending a group whose uids are distinct and new keeps uids unique. */
  lemma AppendGroupUnique(groups: seq<ReceiverGroup>, ng: ReceiverGroup)
    requires UniqueUids(groups) && DistinctUids(ng.receivers)
    requires forall j, h, i :: 0 <= j < |ng.receivers| && 0 <= h < |groups| && 0 <= i < |groups[h].receivers| ==>
      ng.receivers[j].uid != groups[h].receivers[i].uid
    ensures UniqueUids(groups + [ng])
  {
    var r := groups + [ng];
    forall g1, i1, g2, i2 |
      0 <= g1 < |r| && 0 <= i1 < |r[g1].receivers| &&
      0 <= g2 < |r| && 0 <= i2 < |r[g2].receivers| &&
      r[g1].receivers[i1].uid == r[g2].receivers[i2].uid
      ensures g1 == g2 && i1 == i2
    {
      if g1 < |groups| { assert r[g1] == groups[g1]; }
      if g2 < |groups| { assert r[g2] == groups[g2]; }
    }
  }

  /** The receivers left behind when receiver `i` leaves: each one is a former
      member, so the uids stay distinct and the leaving uid is gone. */
  lemma RemainingUids(rs: seq<GrafanaReceiver>, i: nat, name: string)
    requires i < |rs| && DistinctUids(rs)
    ensures var rem := Renamed(Without(rs, i), name);
      |rem| == |rs| - 1
      && (forall j :: 0 <= j < |rem| ==> rem[j].uid == rs[if j < i then j else j + 1].uid)
      && DistinctUids(rem)
      && forall j :: 0 <= j < |rem| ==> rem[j].uid != rs[i].uid
  {
  }

  /** The receivers of group `g`, under unique uids, have distinct uids. */
  lemma GroupDistinct(groups: seq<ReceiverGroup>, g: nat)
    requires UniqueUids(groups) && g < |groups|
    ensures DistinctUids(groups[g].receivers)
  {
  }

  /** Removing a whole group keeps uids unique. */
  lemma RemoveGroupUnique(groups: seq<ReceiverGroup>, g: nat)
    requires UniqueUids(groups) && g < |groups|
    ensures UniqueUids(Without(groups, g))
    ensures forall h :: 0 <= h < |Without(groups, g)| ==> Without(groups, g)[h] == groups[if h < g then h else h + 1]
  {
    var rest := Without(groups, g);
    forall h | 0 <= h < |rest| ensures rest[h] == groups[if h < g then h else h + 1] { }
    forall g1, i1, g2, i2 |
      0 <= g1 < |rest| && 0 <= i1 < |rest[g1].receivers| &&
      0 <= g2 < |rest| && 0 <= i2 < |rest[g2].receivers| &&
      rest[g1].receivers[i1].uid == rest[g2].receivers[i2].uid
      ensures g1 == g2 && i1 == i2
    {
      var h1 := if g1 < g then g1 else g1 + 1;
      var h2 := if g2 < g then g2 else g2 + 1;
      assert rest[g1] == groups[h1] && rest[g2] == groups[h2];
    }
  }

  /** The sole receiver of group `g` joins group `k`; group `g` is removed. */
  lemma SoleJoinUnique(groups: seq<ReceiverGroup>, target: GrafanaReceiver, g: nat, k: nat)
    requires UniqueUids(groups) && g < |groups| && k < |groups| && k != g
    requires |groups[g].receivers| == 1 && groups[g].receivers[0].uid == target.uid
    ensures UniqueUids(Without(groups[k := groups[k].(receivers := groups[k].receivers + [target])], g))
  {
    var ng := groups[k].(receivers := groups[k].receivers + [target]);
    var rest := Without(groups, g);
    var k' := if k < g then k else k - 1;
    RemoveGroupUnique(groups, g);
    GroupDistinct(groups, k);
    assert rest[k'] == groups[k];
    SetGroupUnique(rest, k', ng);
    assert Without(groups[k := ng], g) == rest[k' := ng];
  }

  /** Receiver `i` leaves group `g`, whose other members stay, and joins group `k`. */
  lemma MoveJoinUnique(groups: seq<ReceiverGroup>, target: GrafanaReceiver, g: nat, i: nat, k: nat)
    requires UniqueUids(groups) && g < |groups| && k < |groups| && k != g
    requires i < |groups[g].receivers| && groups[g].receivers[i].uid == target.uid
    ensures var left := ReceiverGroup(groups[g].name, Renamed(Without(groups[g].receivers, i), groups[g].name));
      UniqueUids(groups[k := groups[k].(receivers := groups[k].receivers + [target])][g := left])
  {
    var source := groups[g];
    var left := ReceiverGroup(source.name, Renamed(Without(source.receivers, i), source.name));
    var ng := groups[k].(receivers := groups[k].receivers + [target]);
    GroupDistinct(groups, g);
    GroupDistinct(groups, k);
    RemainingUids(source.receivers, i, source.name);
    SetGroupUnique(groups, g, left);
    var step := groups[g := left];
    SetGroupUnique(step, k, ng);
    assert groups[k := ng][g := left] == step[k := ng];
  }

  /** Receiver `i` leaves group `g`, whose other members stay, for a new group at the end. */
  lemma MoveNewUnique(groups: seq<ReceiverGroup>, target: GrafanaReceiver, g: nat, i: nat)
    requires UniqueUids(groups) && g < |groups|
    requires i < |groups[g].receivers| && groups[g].receivers[i].uid == target.uid
    ensures var left := ReceiverGroup(groups[g].name, Renamed(Without(groups[g].receivers, i), groups[g].name));
      UniqueUids(groups[g := left] + [ReceiverGroup(target.name, [target])])
  {
    var source := groups[g];
    var left := ReceiverGroup(source.name, Renamed(Without(source.receivers, i), source.name));
    GroupDistinct(groups, g);
    RemainingUids(source.receivers, i, source.name);
    SetGroupUnique(groups, g, left);
    AppendGroupUnique(groups[g := left], ReceiverGroup(target.name, [target]));
  }

  /** Receiver `i` of group `g` is replaced by one with the same uid and the
      group's members are renamed. */
  lemma ReplaceUnique(groups: seq<ReceiverGroup>, target: GrafanaReceiver, g: nat, i: nat)
    requires UniqueUids(groups) && g < |groups|
    requires i < |groups[g].receivers| && groups[g].receivers[i].uid == target.uid
    ensures UniqueUids(groups[g := ReceiverGroup(groups[g].name, Renamed(groups[g].receivers[i := target], groups[g].name))])
  {
    var source := groups[g];
    var healed := Renamed(source.receivers[i := target], source.name);
    assert forall j :: 0 <= j < |healed| ==> healed[j].uid == source.receivers[j].uid;
    GroupDistinct(groups, g);
    SetGroupUnique(groups, g, ReceiverGroup(source.name, healed));
  }

  /** Stitching keeps uids unique: the target takes the place of the receiver
      it replaces and no receiver is duplicated. */
  lemma StitchPreservesUniqueUids(groups: seq<ReceiverGroup>, target: GrafanaReceiver)
    requires UniqueUids(groups)
    ensures UniqueUids(Stitched(groups, target))
  {
    var loc := FindReceiver(groups, target.uid, 0);
    if loc.None? { return; }
    var g, i := loc.value.group, loc.value.index;
    var source := groups[g];
    GroupDistinct(groups, g);
    if source.name == target.name {
      ReplaceUnique(groups, target, g, i);
      return;
    }
    match IndexOfGroup(groups, target.name, 0)
    case Some(k) =>
      if |source.receivers| == 1 {
        SoleJoinUnique(groups, target, g, k);
      } else {
        MoveJoinUnique(groups, target, g, i, k);
      }
    case None =>
      if |source.receivers| == 1 {
        SetGroupUnique(groups, g, ReceiverGroup(target.name, [target]));
      } else {
        MoveNewUnique(groups, target, g, i);
      }
  }

  // ---------------------------------------------------------------------------
  // The in-place operation
  // ---------------------------------------------------------------------------

  /** The parsed user configuration; stitching rewrites its receiver groups in place. */
  class UserConfig {
    var receivers: seq<ReceiverGroup>

    constructor (receivers: seq<ReceiverGroup>)
      ensures this.receivers == receivers
    {
      this.receivers := receivers;
    }
  }

  /** Scan the groups, and the receivers of each, for the first receiver with `uid`. */
  method LocateReceiver(groups: seq<ReceiverGroup>, uid: string) returns (loc: Option<Location>)
    ensures loc == FindReceiver(groups, uid, 0)
  {
    var g := 0;
    while g < |groups|
      invariant 0 <= g <= |groups|
      invariant FindReceiver(groups, uid, g) == FindReceiver(groups, uid, 0)
    {
      var rs := groups[g].receivers;
      var i := 0;
      while i < |rs|
        invariant 0 <= i <= |rs|
        invariant IndexOfUid(rs, uid, i) == IndexOfUid(rs, uid, 0)
      {
        if rs[i].uid == uid {
          return Some(Location(g, i));
        }
        i := i + 1;
      }
      g := g + 1;
    }
    return None;
  }

  /** Scan the groups for the first one named `name`. */
  method LocateGroup(groups: seq<ReceiverGroup>, name: string) returns (k: Option<nat>)
    ensures k == IndexOfGroup(groups, name, 0)
  {
    var m := 0;
    while m < |groups|
      invariant 0 <= m <= |groups|
      invariant IndexOfGroup(groups, name, m) == IndexOfGroup(groups, name, 0)
    {
      if groups[m].name == name {
        return Some(m);
      }
      m := m + 1;
    }
    return None;
  }

  /** Force every receiver's name to `name`, one receiver at a time. */
  method RenameAll(rs: seq<GrafanaReceiver>, name: string) returns (out: seq<GrafanaReceiver>)
    ensures out == Renamed(rs, name)
  {
    out := [];
    var j := 0;
    while j < |rs|
      invariant 0 <= j <= |rs|
      invariant |out| == j
      invariant forall m :: 0 <= m < j ==> out[m] == rs[m].(name := name)
    {
      out := out + [rs[j].(name := name)];
      j := j + 1;
    }
  }

  /** Put the updated receiver `target` in place of the receiver with the same
      uid, rewriting `cfg`'s groups; reports whether a receiver with that uid
      was found (and so whether anything was rewritten). */
  method StitchReceiver(cfg: UserConfig, target: GrafanaReceiver) returns (modified: bool)
    modifies cfg
    ensures modified == HasUid(old(cfg.receivers), target.uid)
    ensures cfg.receivers == Stitched(old(cfg.receivers), target)
  {
    var loc := LocateReceiver(cfg.receivers, target.uid);
    if loc.None? {
      return false;
    }
    var g, i := loc.value.group, loc.value.index;
    var source := cfg.receivers[g];
    if source.name == target.name {
      var healed := RenameAll(source.receivers[i := target], source.name);
      cfg.receivers := cfg.receivers[g := ReceiverGroup(source.name, healed)];
      return true;
    }
    var remaining := RenameAll(source.receivers[..i] + source.receivers[i + 1..], source.name);
    var k := LocateGroup(cfg.receivers, target.name);
    if k.Some? {
      var dest := cfg.receivers[k.value];
      cfg.receivers := cfg.receivers[k.value := dest.(receivers := dest.receivers + [target])];
      if |source.receivers| == 1 {
        cfg.receivers := cfg.receivers[..g] + cfg.receivers[g + 1..];
      } else {
        cfg.receivers := cfg.receivers[g := ReceiverGroup(source.name, remaining)];
      }
    } else if |source.receivers| == 1 {
      cfg.receivers := cfg.receivers[g := ReceiverGroup(target.name, [target])];
    } else {
      cfg.receivers := cfg.receivers[g := ReceiverGroup(source.name, remaining)] + [ReceiverGroup(target.name, [target])];
    }
    modified := true;
  }
}
