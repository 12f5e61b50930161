/** Data scopes, from the narrowest to the widest. */
module Rbac {
  datatype DataScope = Self | DirectReports | TeamTree | Organization | OrganizationSet | Platform {
    predicate IsOrganization() {
      Organization? || OrganizationSet?
    }
  }

  function Rank(s: DataScope): nat {
    match s
    case Self => 0
    case DirectReports => 1
    case TeamTree => 2
    case Organization => 3
    case OrganizationSet => 4
    case Platform => 5
  }
}
