/** The entities of an Alertmanager configuration as the contact-point
    provisioning code sees them: receiver groups holding Grafana-managed
    receivers (contact points), the routing tree, and the API view of a
    contact point. */
module Definitions {

  datatype Option<T> = None | Some(value: T)

  /** Which write authority owns an object. An object without a stored tag
      reads as ProvenanceNone. */
  datatype Provenance = ProvenanceNone | ProvenanceApi | ProvenanceFile

  /** The channel-specific settings document, flattened to key/value pairs. */
  type Settings = map<string, string>

  /** One notification channel as it is stored inside a receiver group
      (the configuration's `GrafanaManagedReceivers` entries). */
  datatype GrafanaReceiver = GrafanaReceiver(
    uid: string,
    name: string,
    kind: string,
    disableResolveMessage: bool,
    settings: Settings)

  /** A named receiver group; routes refer to it by `name`. Every receiver in it
      is meant to carry the group's name. */
  datatype ReceiverGroup = ReceiverGroup(name: string, receivers: seq<GrafanaReceiver>)

  /** A node of the routing tree. */
  datatype Route = Route(receiver: string, routes: seq<Route>)

  /** A contact point as the provisioning API hands it out and takes it in.
      `settings` is None when the caller sent no settings at all. */
  datatype EmbeddedContactPoint = EmbeddedContactPoint(
    uid: string,
    name: string,
    kind: string,
    disableResolveMessage: bool,
    settings: Option<Settings>,
    provenance: Provenance)

  /** Every receiver of the group carries the group's name. */
  ghost predicate ConsistentGroup(g: ReceiverGroup)
  {
    forall j :: 0 <= j < |g.receivers| ==> g.receivers[j].name == g.name
  }

  /** Every receiver of every group carries its group's name. */
  ghost predicate Consistent(groups: seq<ReceiverGroup>)
  {
    forall k :: 0 <= k < |groups| ==> ConsistentGroup(groups[k])
  }

  /** No two groups share a name. */
  ghost predicate UniqueGroupNames(groups: seq<ReceiverGroup>)
  {
    forall k, l :: 0 <= k < l < |groups| ==> groups[k].name != groups[l].name
  }

  /** Some receiver of some group has this uid. */
  ghost predicate HasUid(groups: seq<ReceiverGroup>, uid: string)
  {
    exists g, i :: 0 <= g < |groups| && 0 <= i < |groups[g].receivers| && groups[g].receivers[i].uid == uid
  }

  /** No uid occurs twice across all groups. */
  ghost predicate UniqueUids(groups: seq<ReceiverGroup>)
  {
    forall g1, i1, g2, i2 ::
      0 <= g1 < |groups| && 0 <= i1 < |groups[g1].receivers| &&
      0 <= g2 < |groups| && 0 <= i2 < |groups[g2].receivers| &&
      groups[g1].receivers[i1].uid == groups[g2].receivers[i2].uid
      ==> g1 == g2 && i1 == i2
  }

  /** All receivers, group after group, in configuration order. */
  function AllReceivers(groups: seq<ReceiverGroup>): seq<GrafanaReceiver>
  {
    if |groups| == 0 then [] else groups[0].receivers + AllReceivers(groups[1..])
  }
}
