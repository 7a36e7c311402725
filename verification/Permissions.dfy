/** Channel permissions in `src/voice.rs`: role permissions, then three layers of overwrites. A set of
    permissions is a set of bit numbers. */
module Permissions {
  import opened Options

  const ADMINISTRATOR: nat := 3

  datatype Kind = RoleKind | MemberKind | OtherKind

  datatype Overwrite = Overwrite(kind: Kind, id: nat, allow: set<nat>, deny: set<nat>)

  /** A member asking about a channel. `all` is the full set of permissions. */
  datatype Query = Query(
    guild: nat, user: nat, owner: nat, memberRoles: seq<nat>, roles: map<nat, set<nat>>,
    overwrites: seq<Overwrite>, all: set<nat>)

  function RoleBits(roles: map<nat, set<nat>>, id: nat): set<nat> {
    if id in roles then roles[id] else {}
  }

  /** The first overwrite of a kind and id. */
  function First(overwrites: seq<Overwrite>, kind: Kind, id: nat): (r: Option<Overwrite>)
    ensures r.Some? ==> r.value in overwrites && r.value.kind == kind && r.value.id == id
    ensures r.None? ==> forall i :: 0 <= i < |overwrites| ==> overwrites[i].kind != kind || overwrites[i].id != id
  {
    if overwrites == [] then None
    else if overwrites[0].kind == kind && overwrites[0].id == id then Some(overwrites[0])
    else First(overwrites[1..], kind, id)
  }

  // ----- what decides each bit -----

  ghost predicate BaseHas(q: Query, bit: nat) {
    bit in RoleBits(q.roles, q.guild)
    || exists i :: 0 <= i < |q.memberRoles| && bit in RoleBits(q.roles, q.memberRoles[i])
  }

  ghost predicate Unlimited(q: Query) {
    q.user == q.owner || BaseHas(q, ADMINISTRATOR)
  }

  /** An overwrite of one of the member's roles. */
  predicate OfMemberRole(q: Query, o: Overwrite) {
    o.kind.RoleKind? && o.id in q.memberRoles
  }

  ghost predicate SomeRoleAllows(q: Query, bit: nat) {
    exists i :: 0 <= i < |q.overwrites| && OfMemberRole(q, q.overwrites[i]) && bit in q.overwrites[i].allow
  }

  ghost predicate SomeRoleDenies(q: Query, bit: nat) {
    exists i :: 0 <= i < |q.overwrites| && OfMemberRole(q, q.overwrites[i]) && bit in q.overwrites[i].deny
  }

  datatype Verdict = Allowed | Denied | Silent

  function VerdictOf(o: Option<Overwrite>, bit: nat): Verdict {
    if o.Some? && bit in o.value.allow then Allowed
    else if o.Some? && bit in o.value.deny then Denied
    else Silent
  }

  /** The nearest layer that speaks decides: the member's own overwrite, the overwrites of the
      member's roles together, with allow before deny, the overwrite for everyone, the roles. */
  ghost predicate Granted(q: Query, bit: nat) {
    match VerdictOf(First(q.overwrites, MemberKind, q.user), bit)
    case Allowed => true
    case Denied => false
    case Silent =>
      SomeRoleAllows(q, bit)
      || (!SomeRoleDenies(q, bit)
          && match VerdictOf(First(q.overwrites, RoleKind, q.guild), bit)
             case Allowed => true
             case Denied => false
             case Silent => BaseHas(q, bit))
  }

  /** Layer by layer: in each overwrite an allowed bit counts even if it is denied there too. */
  lemma EachLayerDecides(q: Query, bit: nat)
    ensures var own := First(q.overwrites, MemberKind, q.user);
            var everyone := First(q.overwrites, RoleKind, q.guild);
            if own.Some? && bit in own.value.allow then Granted(q, bit)
            else if own.Some? && bit in own.value.deny then !Granted(q, bit)
            else if SomeRoleAllows(q, bit) then Granted(q, bit)
            else if SomeRoleDenies(q, bit) then !Granted(q, bit)
            else if everyone.Some? && bit in everyone.value.allow then Granted(q, bit)
            else if everyone.Some? && bit in everyone.value.deny then !Granted(q, bit)
            else Granted(q, bit)
                 <==> exists id :: (id == q.guild || id in q.memberRoles) && id in q.roles && bit in q.roles[id]
  {
    hide First, SomeRoleAllows, SomeRoleDenies;
    if exists id :: (id == q.guild || id in q.memberRoles) && id in q.roles && bit in q.roles[id] {
      var id :| (id == q.guild || id in q.memberRoles) && id in q.roles && bit in q.roles[id];
      if id != q.guild {
        var i :| 0 <= i < |q.memberRoles| && q.memberRoles[i] == id;
      }
      assert BaseHas(q, bit);
    }
  }

  // ----- the method -----

  method PermissionsOf(q: Query) returns (value: set<nat>)
    ensures Unlimited(q) ==> value == q.all
    ensures !Unlimited(q) ==> forall bit: nat :: bit in value <==> Granted(q, bit)
  {
    hide Granted;
    var base := BaseOf(q);
    if q.user == q.owner || ADMINISTRATOR in base {
      return q.all;
    }
    var everyone := FindFirst(q.overwrites, RoleKind, q.guild);
    value := Layered(base, everyone);
    var allow, deny := RoleLayers(q);
    value := (value - deny) + allow;
    var own := FindFirst(q.overwrites, MemberKind, q.user);
    value := Layered(value, own);
    forall bit: nat ensures bit in value <==> Granted(q, bit) {
      Layers(q, bit, base, allow, deny);
    }
  }

  function Layered(value: set<nat>, o: Option<Overwrite>): (r: set<nat>)
    ensures forall bit: nat :: bit in r <==>
              (VerdictOf(o, bit).Allowed? || (VerdictOf(o, bit).Silent? && bit in value))
  {
    if o.Some? then (value - o.value.deny) + o.value.allow else value
  }

  lemma Layers(q: Query, bit: nat, base: set<nat>, allow: set<nat>, deny: set<nat>)
    requires bit in base <==> BaseHas(q, bit)
    requires (bit in allow <==> SomeRoleAllows(q, bit)) && (bit in deny <==> SomeRoleDenies(q, bit))
    ensures var everyone := Layered(base, First(q.overwrites, RoleKind, q.guild));
            bit in Layered((everyone - deny) + allow, First(q.overwrites, MemberKind, q.user)) <==> Granted(q, bit)
  {
    hide First, BaseHas, SomeRoleAllows, SomeRoleDenies, VerdictOf, Layered;
  }

  method BaseOf(q: Query) returns (value: set<nat>)
    ensures forall bit: nat :: bit in value <==> BaseHas(q, bit)
  {
    value := RoleBits(q.roles, q.guild);
    var i := 0;
    while i < |q.memberRoles|
      invariant 0 <= i <= |q.memberRoles|
      invariant forall bit: nat :: bit in value <==>
                  bit in RoleBits(q.roles, q.guild)
                  || exists k :: 0 <= k < i && bit in RoleBits(q.roles, q.memberRoles[k])
    {
      value := value + RoleBits(q.roles, q.memberRoles[i]);
      i := i + 1;
    }
  }

  method RoleLayers(q: Query) returns (allow: set<nat>, deny: set<nat>)
    ensures forall bit: nat :: bit in allow <==> SomeRoleAllows(q, bit)
    ensures forall bit: nat :: bit in deny <==> SomeRoleDenies(q, bit)
  {
    allow, deny := {}, {};
    var i := 0;
    while i < |q.overwrites|
      invariant 0 <= i <= |q.overwrites|
      invariant forall bit: nat :: bit in allow <==>
                  exists k :: 0 <= k < i && OfMemberRole(q, q.overwrites[k]) && bit in q.overwrites[k].allow
      invariant forall bit: nat :: bit in deny <==>
                  exists k :: 0 <= k < i && OfMemberRole(q, q.overwrites[k]) && bit in q.overwrites[k].deny
    {
      if OfMemberRole(q, q.overwrites[i]) {
        deny := deny + q.overwrites[i].deny;
        allow := allow + q.overwrites[i].allow;
      }
      i := i + 1;
    }
  }

  method FindFirst(overwrites: seq<Overwrite>, kind: Kind, id: nat) returns (r: Option<Overwrite>)
    ensures r == First(overwrites, kind, id)
  {
    var i := 0;
    while i < |overwrites|
      invariant 0 <= i <= |overwrites| && First(overwrites, kind, id) == First(overwrites[i..], kind, id)
    {
      if overwrites[i].kind == kind && overwrites[i].id == id {
        return Some(overwrites[i]);
      }
      assert overwrites[i..][1..] == overwrites[i + 1..];
      i := i + 1;
    }
    r := None;
  }

  // ----- order and repetition -----

  /** At most one overwrite for each kind and id. */
  ghost predicate Unique(overwrites: seq<Overwrite>) {
    forall i, j :: 0 <= i < j < |overwrites| ==>
      overwrites[i].kind != overwrites[j].kind || overwrites[i].id != overwrites[j].id
  }

  /** `p` asks what `q` asks, with roles and overwrites in another order, and roles repeated. */
  ghost predicate Rearranged(q: Query, p: Query) {
    p == q.(memberRoles := p.memberRoles, overwrites := p.overwrites)
    && (forall id :: id in q.memberRoles <==> id in p.memberRoles)
    && (forall o :: o in q.overwrites <==> o in p.overwrites)
    && Unique(q.overwrites) && Unique(p.overwrites)
  }

  lemma RearrangedBothWays(q: Query, p: Query)
    requires Rearranged(q, p)
    ensures Rearranged(p, q)
  {}

  /** The answer depends neither on the order of the member's roles and of the overwrites, nor on
      repeated roles. */
  lemma OrderDoesNotMatter(q: Query, p: Query, bit: nat)
    requires Rearranged(q, p)
    ensures Unlimited(q) <==> Unlimited(p)
    ensures Granted(q, bit) <==> Granted(p, bit)
  {
    hide First, Rearranged, BaseHas, SomeRoleAllows, SomeRoleDenies;
    RearrangedBothWays(q, p);
    BaseCarriesOver(q, p, bit);
    BaseCarriesOver(p, q, bit);
    BaseCarriesOver(q, p, ADMINISTRATOR);
    BaseCarriesOver(p, q, ADMINISTRATOR);
    RolesCarryOver(q, p, bit);
    RolesCarryOver(p, q, bit);
    FirstCarriesOver(q, p, MemberKind, q.user);
    FirstCarriesOver(q, p, RoleKind, q.guild);
    SameQuestion(q, p);
  }

  lemma SameQuestion(q: Query, p: Query)
    requires Rearranged(q, p)
    ensures p.user == q.user && p.guild == q.guild && p.owner == q.owner && p.all == q.all
  {}

  lemma BaseCarriesOver(q: Query, p: Query, bit: nat)
    requires Rearranged(q, p)
    ensures BaseHas(q, bit) ==> BaseHas(p, bit)
  {
    if BaseHas(q, bit) && bit !in RoleBits(q.roles, q.guild) {
      var i :| 0 <= i < |q.memberRoles| && bit in RoleBits(q.roles, q.memberRoles[i]);
      assert q.memberRoles[i] in q.memberRoles && q.memberRoles[i] in p.memberRoles;
      var j :| 0 <= j < |p.memberRoles| && p.memberRoles[j] == q.memberRoles[i];
    }
  }

  lemma RolesCarryOver(q: Query, p: Query, bit: nat)
    requires Rearranged(q, p)
    ensures SomeRoleAllows(q, bit) ==> SomeRoleAllows(p, bit)
    ensures SomeRoleDenies(q, bit) ==> SomeRoleDenies(p, bit)
  {
    if SomeRoleAllows(q, bit) {
      var i :| 0 <= i < |q.overwrites| && OfMemberRole(q, q.overwrites[i]) && bit in q.overwrites[i].allow;
      var j := PlaceOf(q, p, i);
    }
    if SomeRoleDenies(q, bit) {
      var i :| 0 <= i < |q.overwrites| && OfMemberRole(q, q.overwrites[i]) && bit in q.overwrites[i].deny;
      var j := PlaceOf(q, p, i);
    }
  }

  lemma PlaceOf(q: Query, p: Query, i: nat) returns (j: nat)
    requires Rearranged(q, p) && i < |q.overwrites|
    ensures j < |p.overwrites| && p.overwrites[j] == q.overwrites[i]
    ensures OfMemberRole(p, q.overwrites[i]) == OfMemberRole(q, q.overwrites[i])
  {
    assert q.overwrites[i] in p.overwrites;
    j :| 0 <= j < |p.overwrites| && p.overwrites[j] == q.overwrites[i];
  }

  lemma FirstCarriesOver(q: Query, p: Query, kind: Kind, id: nat)
    requires Rearranged(q, p)
    ensures First(q.overwrites, kind, id) == First(p.overwrites, kind, id)
  {
    var x, y := First(q.overwrites, kind, id), First(p.overwrites, kind, id);
    if x.Some? {
      assert x.value in p.overwrites;
      TheOnlyOne(p.overwrites, kind, id, x.value);
    } else if y.Some? {
      assert y.value in q.overwrites;
      TheOnlyOne(q.overwrites, kind, id, y.value);
    }
  }

  lemma TheOnlyOne(overwrites: seq<Overwrite>, kind: Kind, id: nat, o: Overwrite)
    requires Unique(overwrites) && o in overwrites && o.kind == kind && o.id == id
    ensures First(overwrites, kind, id) == Some(o)
  {
    var i :| 0 <= i < |overwrites| && overwrites[i] == o;
    var found := First(overwrites, kind, id);
    assert found.Some?;
    var j :| 0 <= j < |overwrites| && overwrites[j] == found.value;
    assert i == j;
  }
}
