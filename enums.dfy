/**
 * The role hierarchy of a chat member. A role is stored by its string
 * value; roles are compared by a numeric level.
 */
module Enums {
  import opened WriteBack

  datatype Role = User | Moderator | SeniorModerator | Admin

  /** The enum's string value, the form in which the store keeps a role. */
  function Value(r: Role): string
  {
    match r
    case User => "user"
    case Moderator => "moderator"
    case SeniorModerator => "senior_moderator"
    case Admin => "admin"
  }

  /** `Role(s)`: the role whose value is `s`, if any. */
  function Parse(s: string): (r: Option<Role>)
    ensures r.Some? ==> Value(r.value) == s
    ensures r.None? ==> forall q: Role :: Value(q) != s
  {
    if s == "user" then Some(User)
    else if s == "moderator" then Some(Moderator)
    else if s == "senior_moderator" then Some(SeniorModerator)
    else if s == "admin" then Some(Admin)
    else None
  }

  /** The `level` property. */
  function Level(r: Role): (n: nat)
    ensures n <= 3
  {
    match r
    case User => 0
    case Moderator => 1
    case SeniorModerator => 2
    case Admin => 3
  }

  /** `a >= b`, the only comparison the enum redefines. */
  predicate AtLeast(a: Role, b: Role)
  {
    Level(a) >= Level(b)
  }

  /** Parsing a role's value gives the role back. */
  lemma ParseValue(r: Role)
    ensures Parse(Value(r)) == Some(r)
  {
  }

  /** The level mapping, written out, and its being one-to-one. */
  lemma LevelMapping(a: Role, b: Role)
    ensures Level(User) == 0 && Level(Moderator) == 1 && Level(SeniorModerator) == 2 && Level(Admin) == 3
    ensures Level(a) == Level(b) ==> a == b
  {
  }

  /** `>=` is reflexive, antisymmetric, transitive and total. */
  lemma AtLeastIsTotalOrder(a: Role, b: Role, c: Role)
    ensures AtLeast(a, a)
    ensures AtLeast(a, b) && AtLeast(b, a) ==> a == b
    ensures AtLeast(a, b) && AtLeast(b, c) ==> AtLeast(a, c)
    ensures AtLeast(a, b) || AtLeast(b, a)
  {
    LevelMapping(a, b);
  }

  /** `user` is the least role and `admin` the greatest. */
  lemma UserBottomAdminTop(r: Role)
    ensures AtLeast(r, User)
    ensures AtLeast(Admin, r)
    ensures AtLeast(User, r) <==> r == User
    ensures AtLeast(r, Admin) <==> r == Admin
  {
  }
}
