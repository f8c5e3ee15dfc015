/** UserSchema: the constraints on a user body, its role enum and the role's default. */
module UserSchema {
  import opened Base
  import opened Text
  import opened Zod

  datatype Role = Admin | Seller | Buyer

  /** The enum's literal for each role. */
  function RoleName(r: Role): string
  {
    match r
    case Admin => "admin"
    case Seller => "seller"
    case Buyer => "buyer"
  }

  /** `z.enum(['admin', 'seller', 'buyer'])`: exactly the three literals are accepted. */
  function ParseRole(s: string): (r: Option<Role>)
    ensures r.Some? <==> s in {"admin", "seller", "buyer"}
    ensures r.Some? ==> RoleName(r.value) == s
  {
    if s == "admin" then Some(Admin)
    else if s == "seller" then Some(Seller)
    else if s == "buyer" then Some(Buyer)
    else None
  }

  lemma RoleRoundTrip(r: Role)
    ensures ParseRole(RoleName(r)) == Some(r)
  {
  }

  /** A user body as received: `image` and `role` may be absent. */
  datatype UserInput = UserInput(
    name: string,
    image: Option<string>,
    email: string,
    password: string,
    role: Option<string>,
    createdAt: Option<int>,
    updatedAt: Option<int>)

  /** The parsed user: the role is always present. */
  datatype User = User(
    name: string,
    image: Option<string>,
    email: string,
    password: string,
    role: Role,
    createdAt: Option<int>,
    updatedAt: Option<int>)

  /** The declared constraints, stated field by field (a password's length counts UTF-16 code units). */
  predicate Valid(fmt: Formats, u: UserInput)
  {
    && |u.name| > 0
    && fmt.isEmail(u.email)
    && Utf16Length(u.password) >= 6
    && (u.role.None? || u.role.value in {"admin", "seller", "buyer"})
  }

  function RoleIssues(role: Option<string>): seq<Issue>
  {
    match role
    case None => []
    case Some(s) =>
      Check(ParseRole(s).Some?, "role",
            "Invalid enum value. Expected 'admin' | 'seller' | 'buyer', received '" + s + "'")
  }

  /** What `UserSchema.safeParse` reports when it fails. */
  function Issues(fmt: Formats, u: UserInput): (issues: seq<Issue>)
    ensures issues == [] <==> Valid(fmt, u)
  {
    Check(u.name != "", "name", "Name is required")
    + Check(fmt.isEmail(u.email), "email", "Email is required")
    + Check(Utf16Length(u.password) >= 6, "password", "Password must be at least 6 characters")
    + RoleIssues(u.role)
  }

  /**
   * `UserSchema.safeParse`: the parsed user when the body is valid, with a missing role
   * replaced by `buyer`; the issues otherwise.
   */
  function Parse(fmt: Formats, u: UserInput): (r: Result<User, seq<Issue>>)
    ensures r.Success? <==> Valid(fmt, u)
    ensures r.Failure? ==> r.error != []
    ensures r.Success? ==>
              && r.value.role == (if u.role.None? then Buyer else ParseRole(u.role.value).value)
              && RoleName(r.value.role) == (if u.role.None? then "buyer" else u.role.value)
              && r.value.name == u.name && r.value.image == u.image && r.value.email == u.email
              && r.value.password == u.password
              && r.value.createdAt == u.createdAt && r.value.updatedAt == u.updatedAt
  {
    if !Valid(fmt, u) then Failure(Issues(fmt, u))
    else
      var role := match u.role case None => Buyer case Some(s) => ParseRole(s).value;
      Success(User(u.name, u.image, u.email, u.password, role, u.createdAt, u.updatedAt))
  }

  /** A password of five characters is refused; six BMP characters are enough. */
  lemma PasswordMinimum(fmt: Formats, u: UserInput)
    requires Valid(fmt, u)
    ensures !Valid(fmt, u.(password := "12345"))
    ensures Valid(fmt, u.(password := "123456"))
  {
    assert Utf16Length("12345") == 5;
    assert Utf16Length("123456") == 6;
  }

  /** The timestamps and the image are optional and unconstrained: they never decide acceptance. */
  lemma OptionalFieldsUnchecked(fmt: Formats, u: UserInput, image: Option<string>, createdAt: Option<int>, updatedAt: Option<int>)
    ensures Issues(fmt, u) == Issues(fmt, u.(image := image, createdAt := createdAt, updatedAt := updatedAt))
  {
  }
}
