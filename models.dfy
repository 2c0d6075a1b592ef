/**
 * The two persisted entities, the login request, and the validity rules their
 * data-annotation attributes impose (Models/Product.cs, Models/User.cs,
 * Models/LoginRequest.cs).  A model is "valid" exactly when the framework's
 * model validation would accept it.
 */
module Models {
  import opened Base

  /** A catalogue entry.  The source's `decimal` price is a `real` here. */
  datatype Product = Product(id: Int32, name: string, price: real, stock: Int32)

  /** A user account.  `password` holds the plaintext on input and the hash once stored. */
  datatype User = User(id: Int32, username: string, email: string, password: string)

  /** The body of a login request; never stored. */
  datatype LoginRequest = LoginRequest(username: string, password: string)

  /** The values a freshly constructed object holds (every string `string.Empty`, numbers zero). */
  const DefaultProduct := Product(0, "", 0.0, 0)
  const DefaultUser := User(0, "", "", "")

  const NameMaxLength := 100
  const MinPrice: real := 0.01
  const UsernameMaxLength := 50
  const PasswordMinLength := 6
  const PasswordMaxLength := 100

  /** `char.IsWhiteSpace`: the Unicode space, line and paragraph separators and the C0/C1 controls U+0009..U+000D, U+0085. */
  predicate IsWhiteSpace(c: char)
    ensures c as int < 0x80 ==> (IsWhiteSpace(c) <==> c == ' ' || '\t' <= c <= '\r')
  {
    var n := c as int;
    (0x09 <= n <= 0x0D) || n == 0x20 || n == 0x85 || n == 0xA0 || n == 0x1680
    || (0x2000 <= n <= 0x200A) || n == 0x2028 || n == 0x2029 || n == 0x202F
    || n == 0x205F || n == 0x3000
  }

  /** `[Required]` on a string: present and not empty once trimmed of white space. */
  predicate Required(s: string)
    ensures Required(s) ==> |s| > 0
    ensures !Required(s) <==> forall i :: 0 <= i < |s| ==> IsWhiteSpace(s[i])
  {
    exists i :: 0 <= i < |s| && !IsWhiteSpace(s[i])
  }

  /** `[StringLength(max, MinimumLength = min)]`. */
  predicate LengthBetween(s: string, min: nat, max: nat) {
    min <= |s| <= max
  }

  /**
   * Product validation: `[Required]` and `[StringLength(100)]` on the name,
   * `[Range(0.01, double.MaxValue)]` on the price and `[Range(0, int.MaxValue)]`
   * on the stock.  The upper bounds are implied by the field types.
   */
  predicate ValidProduct(p: Product)
    ensures ValidProduct(p) ==> 0 < |p.name| <= NameMaxLength
    ensures ValidProduct(p) ==> p.price >= MinPrice && p.price > 0.0
    ensures ValidProduct(p) ==> p.stock >= 0
  {
    && Required(p.name)
    && LengthBetween(p.name, 0, NameMaxLength)
    && p.price >= MinPrice
    && p.stock >= 0
  }

  /**
   * User validation: `[Required]` and `[StringLength(50)]` on the username,
   * `[Required]` and `[EmailAddress]` on the email, `[Required]` and
   * `[StringLength(100, MinimumLength = 6)]` on the password.  The e-mail
   * syntax check is the framework's, so it is a parameter.
   */
  predicate ValidUser(u: User, isEmail: string -> bool)
    ensures ValidUser(u, isEmail) ==> 0 < |u.username| <= UsernameMaxLength
    ensures ValidUser(u, isEmail) ==> 0 < |u.email| && isEmail(u.email)
    ensures ValidUser(u, isEmail) ==> PasswordMinLength <= |u.password| <= PasswordMaxLength
  {
    && Required(u.username)
    && LengthBetween(u.username, 0, UsernameMaxLength)
    && Required(u.email)
    && isEmail(u.email)
    && Required(u.password)
    && LengthBetween(u.password, PasswordMinLength, PasswordMaxLength)
  }

  /** Login validation: `[Required]` on both fields. */
  predicate ValidLogin(r: LoginRequest)
    ensures ValidLogin(r) ==> |r.username| > 0 && |r.password| > 0
  {
    Required(r.username) && Required(r.password)
  }

  /** The stored record after an update: its id, with the editable fields of `body`. */
  function WithEditableFields(stored: Product, body: Product): (r: Product)
    ensures r.id == stored.id
    ensures ValidProduct(body) ==> ValidProduct(r)
  {
    stored.(name := body.name, price := body.price, stock := body.stock)
  }

  // Consequences of the validity rules.

  lemma NonPositivePriceInvalid(p: Product)
    requires p.price <= 0.0
    ensures !ValidProduct(p)
  {
  }

  lemma BlankNameInvalid(p: Product)
    requires forall i :: 0 <= i < |p.name| ==> IsWhiteSpace(p.name[i])
    ensures !ValidProduct(p)
  {
  }

  lemma DefaultProductInvalid()
    ensures !ValidProduct(DefaultProduct)
  {
  }

  lemma DefaultUserInvalid(isEmail: string -> bool)
    ensures !ValidUser(DefaultUser, isEmail)
  {
  }

  /** Whatever passes user validation also passes login validation. */
  lemma ValidUserCanLogIn(u: User, isEmail: string -> bool)
    requires ValidUser(u, isEmail)
    ensures ValidLogin(LoginRequest(u.username, u.password))
  {
  }
}
