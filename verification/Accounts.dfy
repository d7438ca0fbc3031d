/** The role of an account, and the kind its principal shows to other services. */
module Accounts {
  datatype Role = Customer | Seller | Courier | Admin

  datatype Kind = CustomerKind | MerchantKind | DriverKind | StaffKind

  function PrincipalKindForRole(role: Role): Kind {
    match role
    case Customer => CustomerKind
    case Seller => MerchantKind
    case Courier => DriverKind
    case Admin => StaffKind
  }

  predicate RequiresTwoFactor(role: Role) {
    role == Admin
  }
}
