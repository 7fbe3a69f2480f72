/**
 * The enumerations of the Mongoose schemas (server/src/models) and the JSON
 * shape of an account as the auth endpoints return it and the client keeps it.
 */
module Schemas {
  import opened Options

  /** `User.role`: `enum: ['farmer', 'expert']`, default `'farmer'`. */
  datatype Role = Farmer | Expert

  /** `User.preferredLanguage`: `enum: ['en', 'hi']`, default `'en'`. */
  datatype Language = En | Hi

  /** `Crop.type`: `enum: ['Kharif', 'Rabi', 'Zaid']`. */
  datatype CropType = Kharif | Rabi | Zaid

  /** `Order.status`: `enum: ['pending', 'paid', 'failed']`, default `'pending'`. */
  datatype OrderStatus = Pending | Paid | Failed

  const DefaultRole: Role := Farmer
  const DefaultLanguage: Language := En
  const DefaultOrderStatus: OrderStatus := Pending

  function RoleName(r: Role): string {
    match r
    case Farmer => "farmer"
    case Expert => "expert"
  }

  /**
   * The enum check Mongoose applies to a role string. It returns a role exactly
   * for the two enumerated spellings, so it inverts `RoleName`.
   */
  function ParseRole(s: string): (r: Option<Role>)
    ensures r.Some? <==> s == "farmer" || s == "expert"
    ensures r.Some? ==> RoleName(r.value) == s
  {
    if s == "farmer" then Some(Farmer) else if s == "expert" then Some(Expert) else None
  }

  function ParseLanguage(s: string): (r: Option<Language>)
    ensures r.Some? <==> s == "en" || s == "hi"
  {
    if s == "en" then Some(En) else if s == "hi" then Some(Hi) else None
  }

  /** The account view `{_id, name, email, role, preferredLanguage}`; it has no password hash. */
  datatype Account = Account(id: nat, name: string, email: string, role: Role, language: Language)
}
