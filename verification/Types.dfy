/** Entities shared by the control-plane modules.  Identifiers are opaque and only ever
    compared for equality, so they are numbers here; instants are points of a total order. */
module Types {
  type Id = nat
  type Time = int

  datatype Option<+T> = None | Some(value: T)

  datatype Scope = ResourceRead | ResourceWrite | NetworkEgress

  datatype PrincipalKind = Human | AgentKind

  datatype Principal = Principal(id: Id, kind: PrincipalKind)

  /** The part of a grant that determines how much power it confers. */
  datatype Shape = Shape(scope: Scope, target: string, expiresAt: Option<Time>)

  datatype Grant = Grant(
    id: Id,
    principalId: Id,
    grantedBy: Id,
    shape: Shape,
    createdAt: Time,
    revokedAt: Option<Time>,
    revokedBy: Option<Id>,
    parent: Option<Id>)
  {
    predicate Unrevoked() {
      revokedAt.None?
    }

    /** Expiry is exclusive: a grant is spent at the very instant it names. */
    predicate Expired(now: Time) {
      shape.expiresAt.Some? && shape.expiresAt.value <= now
    }

    /** The one-grant test that containment verification applies. */
    predicate LocallyLive(now: Time) {
      Unrevoked() && !Expired(now)
    }
  }
}
