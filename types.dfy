/** Shared value types of the storefront: the optional value used for JavaScript's
    null/undefined, and the two enumerations declared in src/types/index.ts. */
module Types {

  datatype Option<+T> = None | Some(value: T)

  /** The three account roles of the backend. */
  datatype Role = Admin | Provider | Customer

  /** The wire spelling of a role, as compared by the route guard and the navbar. */
  function RoleName(r: Role): (s: string)
    ensures |s| > 0
  {
    match r
    case Admin => "ADMIN"
    case Provider => "PROVIDER"
    case Customer => "CUSTOMER"
  }

  /** The five states of an order. */
  datatype OrderStatus = Placed | Preparing | Ready | Delivered | Cancelled

  /** The wire spelling of a status. */
  function StatusName(s: OrderStatus): string
  {
    match s
    case Placed => "PLACED"
    case Preparing => "PREPARING"
    case Ready => "READY"
    case Delivered => "DELIVERED"
    case Cancelled => "CANCELLED"
  }

  /** Distinct roles and distinct statuses are spelled differently on the wire. */
  lemma NamesInjective()
    ensures forall a: Role, b: Role :: RoleName(a) == RoleName(b) ==> a == b
    ensures forall a: OrderStatus, b: OrderStatus :: StatusName(a) == StatusName(b) ==> a == b
  {
  }
}
