/** Values as they arrive in a parsed JSON request body, and JavaScript truthiness. */
module Common {

  datatype Option<+T> = None | Some(value: T)

  /** One field of a parsed JSON request body. `Undefined` is a field that is absent.
      Numbers are integers: fractional numbers, objects and arrays are not modelled. */
  datatype Value = Undefined | Null | Num(n: int) | Str(s: string) | Bool(b: bool)

  /** JavaScript's `!!v`: the falsy values are undefined, null, 0, "" and false. */
  predicate Truthy(v: Value)
  {
    match v
    case Undefined => false
    case Null => false
    case Num(n) => n != 0
    case Str(s) => s != ""
    case Bool(b) => b
  }

  /** `typeof v === 'number' && v > 0`, the quantity check of the cart handlers. */
  predicate PositiveNumber(v: Value)
  {
    v.Num? && v.n > 0
  }
}

/** The HTTP boundary: every status code and message the handlers answer with. */
module Http {

  /** The distinct messages of the handlers' error responses. Two responses with the same
      status and the same `Msg` are indistinguishable to the client. */
  datatype Msg =
    // authMiddleware.js
    | TokenMissing
    | TokenInvalid
    | RoleMissing
    | RoleNotAllowed(allowed: seq<string>)
    // authController.js
    | FieldsRequired
    | EmailInvalid
    | PasswordTooShort
    | EmailTaken
    | CredentialsRequired
    | CredentialsInvalid
    | UserNotFound
    // productController.js
    | ProductIdNotFound
    // cartController.js
    | InvalidProductOrQuantity
    | ProductNotFound
    | StockExceeded(stock: int)
    | StockExceededWithCart(stock: int)
    | InvalidQuantity
    | CartItemNotFound
    | RelatedProductNotFound
    | StockExceededForUpdate(stock: int)
    // orderController.js
    | AddressRequired
    | CartEmpty

  /** A response: a success status with its JSON body, or an error status with its message. */
  datatype Reply<+T> = Ok(status: int, body: T) | Err(status: int, msg: Msg)
}
