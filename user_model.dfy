/**
 * The user schema of backend/models/user.model.js: the casting Mongoose does
 * when a document is built (email setters, defaults), the validators it runs
 * before saving, the `pre("save")` password hook and `comparePassword`.
 * bcrypt is replaced by a free constructor: a digest remembers its source.
 */
module UserModel {
  import opened Wrappers
  import opened Jwt

  datatype Role = Admin | Customer

  /** A password as stored: plaintext, or the bcrypt digest of a password. */
  datatype Secret = Plain(text: string) | Digest(source: Secret, salt: nat)

  datatype CartItemInput = CartItemInput(quantity: Option<int>, product: Option<string>)
  datatype CartItem = CartItem(quantity: int, product: Option<string>)

  /** The fields handed to `User.create`; an absent field is `None`. */
  datatype UserInput = UserInput(
    name: Option<string>, email: Option<string>, password: Option<string>,
    role: Option<string>, cartItems: seq<CartItemInput>)

  /** A saved user document. */
  datatype UserRecord = UserRecord(
    id: UserId, name: string, email: string, password: Secret,
    role: Role, cartItems: seq<CartItem>)

  /** One entry of a Mongoose ValidationError: the path and its message. */
  datatype FieldError = FieldError(path: string, message: string)

  const MinPasswordLength: nat := 6

  // ---- email setters: `trim: true` and `lowercase: true` ----

  /** The characters String.prototype.trim removes. */
  predicate IsSpace(c: char)
  {
    || '\t' <= c <= '\r' || c == ' ' || c == '\U{A0}' || c == '\U{1680}'
    || '\U{2000}' <= c <= '\U{200A}' || c == '\U{2028}' || c == '\U{2029}'
    || c == '\U{202F}' || c == '\U{205F}' || c == '\U{3000}' || c == '\U{FEFF}'
  }

  /** Drops leading whitespace: the result is the suffix left after it. */
  function TrimStart(s: string): (r: string)
    ensures |r| <= |s| && r == s[|s| - |r|..]
    ensures forall i :: 0 <= i < |s| - |r| ==> IsSpace(s[i])
    ensures r == [] || !IsSpace(r[0])
    decreases |s|
  {
    if s != [] && IsSpace(s[0]) then TrimStart(s[1..]) else s
  }

  /** Drops trailing whitespace: the result is the prefix left before it. */
  function TrimEnd(s: string): (r: string)
    ensures |r| <= |s| && r == s[..|r|]
    ensures forall i :: |r| <= i < |s| ==> IsSpace(s[i])
    ensures r == [] || !IsSpace(r[|r| - 1])
    decreases |s|
  {
    if s != [] && IsSpace(s[|s| - 1]) then TrimEnd(s[..|s| - 1]) else s
  }

  /** Drops whitespace at both ends. */
  function Trim(s: string): (r: string)
    ensures |r| <= |s|
    ensures r == [] || (!IsSpace(r[0]) && !IsSpace(r[|r| - 1]))
  {
    TrimEnd(TrimStart(s))
  }

  /** What Trim keeps is a slice of its input, and everything cut off at either end is whitespace. */
  lemma TrimIsSlice(s: string)
    ensures exists i, j ::
      (0 <= i <= j <= |s| && Trim(s) == s[i..j] && forall k :: (0 <= k < i || j <= k < |s|) ==> IsSpace(s[k]))
  {
    var front := TrimStart(s);
    var i := |s| - |front|;
    var r := TrimEnd(front);
    var j := i + |r|;
    assert front == s[i..] && r == front[..|r|];
    assert r == s[i..j];
    forall k | 0 <= k < |s| && (k < i || j <= k)
      ensures IsSpace(s[k])
    {
      if j <= k {
        assert s[k] == front[k - i] && |r| <= k - i < |front|;
      }
    }
  }

  function LowerChar(c: char): char
  {
    if 'A' <= c <= 'Z' then (c as int + 32) as char else c
  }

  /** String.prototype.toLowerCase, restricted to ASCII letters. */
  function ToLower(s: string): (r: string)
    ensures |r| == |s|
    ensures forall i :: 0 <= i < |s| ==> r[i] == LowerChar(s[i])
    ensures forall i :: 0 <= i < |r| ==> !('A' <= r[i] <= 'Z')
  {
    seq(|s|, i requires 0 <= i < |s| => LowerChar(s[i]))
  }

  /** The email Mongoose stores (and queries with): trimmed, then lowercased. */
  function NormalizeEmail(s: string): (r: string)
    ensures |r| <= |s|
    ensures forall i :: 0 <= i < |r| ==> !('A' <= r[i] <= 'Z')
    ensures r == [] || (!IsSpace(r[0]) && !IsSpace(r[|r| - 1]))
  {
    var t := Trim(s);
    if t == [] then ToLower(t)
    else
      LowerKeepsSpace(t[0]);
      LowerKeepsSpace(t[|t| - 1]);
      ToLower(t)
  }

  /** The stored email is the trimmed input with each character lowercased in place. */
  lemma NormalizeEmailLowersTrim(s: string)
    ensures |NormalizeEmail(s)| == |Trim(s)|
    ensures forall k :: 0 <= k < |Trim(s)| ==> NormalizeEmail(s)[k] == LowerChar(Trim(s)[k])
  {
  }

  /** Lowercasing neither creates nor removes whitespace. */
  lemma LowerKeepsSpace(c: char)
    ensures IsSpace(LowerChar(c)) <==> IsSpace(c)
  {
  }

  lemma {:induction false} TrimStartOfTrimmed(s: string)
    requires s == [] || !IsSpace(s[0])
    ensures TrimStart(s) == s
  {
  }

  lemma {:induction false} TrimEndOfTrimmed(s: string)
    requires s == [] || !IsSpace(s[|s| - 1])
    ensures TrimEnd(s) == s
  {
  }

  /** Trimming twice is trimming once. */
  lemma TrimIdempotent(s: string)
    ensures Trim(Trim(s)) == Trim(s)
  {
    var t := Trim(s);
    TrimStartOfTrimmed(t);
    TrimEndOfTrimmed(t);
  }

  /** A string with no whitespace at either end is its own trimming. */
  lemma TrimOfTrimmed(t: string)
    requires t == [] || (!IsSpace(t[0]) && !IsSpace(t[|t| - 1]))
    ensures Trim(t) == t
  {
    TrimStartOfTrimmed(t);
    TrimEndOfTrimmed(t);
  }

  lemma ToLowerIdempotent(s: string)
    ensures ToLower(ToLower(s)) == ToLower(s)
  {
    var l := ToLower(s);
    assert forall i :: 0 <= i < |l| ==> ToLower(l)[i] == l[i];
  }

  /** Normalising an already stored email leaves it as it is. */
  lemma NormalizeEmailIdempotent(s: string)
    ensures NormalizeEmail(NormalizeEmail(s)) == NormalizeEmail(s)
  {
    var n := NormalizeEmail(s);
    TrimOfTrimmed(n);
    ToLowerIdempotent(Trim(s));
  }

  // ---- validators ----

  /** `required` on a String path: absent or empty fails. */
  predicate Missing(v: Option<string>)
  {
    v.None? || v.value == ""
  }

  /** The email after casting: setters run only on a value that is present. */
  function CastEmail(v: Option<string>): Option<string>
  {
    if v.Some? then Some(NormalizeEmail(v.value)) else None
  }

  function NameError(v: Option<string>): seq<FieldError>
  {
    if Missing(v) then [FieldError("name", "Name is required")] else []
  }

  function EmailError(cast: Option<string>): seq<FieldError>
  {
    if Missing(cast) then [FieldError("email", "Email is required")] else []
  }

  /** `required` runs before `minlength`, and a path reports only its first failure. */
  function PasswordError(v: Option<string>): seq<FieldError>
  {
    if Missing(v) then [FieldError("password", "Password is required")]
    else if |v.value| < MinPasswordLength then
      [FieldError("password", "Password must be at least 6 characters long")]
    else []
  }

  /** `enum: ["admin", "customer"]` with `default: "customer"`. */
  function CastRole(v: Option<string>): (r: Result<Role, FieldError>)
    ensures v.None? ==> r == Success(Customer)
    ensures r.Success? <==> v.None? || v.value == "admin" || v.value == "customer"
    ensures r == Success(Admin) <==> v == Some("admin")
    ensures r.Failure? ==> r.error.path == "role"
  {
    match v
    case None => Success(Customer)
    case Some(s) =>
      if s == "admin" then Success(Admin)
      else if s == "customer" then Success(Customer)
      else Failure(FieldError("role", "`" + s + "` is not a valid enum value for path `role`."))
  }

  function RoleError(v: Option<string>): seq<FieldError>
  {
    match CastRole(v)
    case Success(_) => []
    case Failure(e) => [e]
  }

  /** A cart item's `quantity` defaults to 1. */
  function CastCartItem(item: CartItemInput): (r: CartItem)
    ensures item.quantity.None? ==> r.quantity == 1
    ensures item.quantity.Some? ==> r.quantity == item.quantity.value
    ensures r.product == item.product
  {
    CartItem(if item.quantity.Some? then item.quantity.value else 1, item.product)
  }

  function CastCart(items: seq<CartItemInput>): (r: seq<CartItem>)
    ensures |r| == |items|
    ensures forall i :: 0 <= i < |items| ==> r[i] == CastCartItem(items[i])
  {
    seq(|items|, i requires 0 <= i < |items| => CastCartItem(items[i]))
  }

  /** Every validation failure, in schema order. */
  function Errors(input: UserInput): seq<FieldError>
  {
    NameError(input.name) + EmailError(CastEmail(input.email))
      + PasswordError(input.password) + RoleError(input.role)
  }

  /** All the fields rules of the schema hold of the cast input. */
  predicate Acceptable(input: UserInput)
  {
    && !Missing(input.name)
    && input.email.Some? && NormalizeEmail(input.email.value) != ""
    && input.password.Some? && |input.password.value| >= MinPasswordLength
    && CastRole(input.role).Success?
  }

  /**
   * Casting and validation before `save`: either the document that would be
   * written, with the normalised email, defaults applied and the password
   * still in plaintext, or the list of failures.
   */
  function Validate(input: UserInput, id: UserId): (r: Result<UserRecord, seq<FieldError>>)
    ensures r.Success? <==> Acceptable(input)
    ensures r.Failure? ==> r.error != [] && r.error == Errors(input)
    ensures r.Success? ==>
      && r.value.id == id
      && r.value.name == input.name.value
      && r.value.email == NormalizeEmail(input.email.value)
      && r.value.password == Plain(input.password.value)
      && r.value.role == CastRole(input.role).value
      && (input.role.None? ==> r.value.role == Customer)
      && r.value.cartItems == CastCart(input.cartItems)
  {
    var errors := Errors(input);
    if errors != [] then Failure(errors)
    else
      Success(UserRecord(id, input.name.value, NormalizeEmail(input.email.value),
        Plain(input.password.value), CastRole(input.role).value, CastCart(input.cartItems)))
  }

  /** Missing fields and short passwords are reported with the schema's messages. */
  lemma RequiredMessages(input: UserInput)
    ensures Missing(input.name) ==> FieldError("name", "Name is required") in Errors(input)
    ensures input.email.None? || NormalizeEmail(input.email.value) == "" ==>
      FieldError("email", "Email is required") in Errors(input)
    ensures Missing(input.password) ==> FieldError("password", "Password is required") in Errors(input)
    ensures !Missing(input.password) && |input.password.value| < 6 ==>
      FieldError("password", "Password must be at least 6 characters long") in Errors(input)
  {
  }

  /** The text of a ValidationError: "User validation failed: path: message, ...". */
  function ValidationMessage(errors: seq<FieldError>): (r: string)
    ensures "User validation failed: " <= r
    ensures errors != [] ==> "User validation failed: " + errors[0].path + ": " + errors[0].message <= r
    ensures r[|"User validation failed: "|..] == JoinErrors(errors)
  {
    "User validation failed: " + JoinErrors(errors)
  }

  /** Each error as "path: message", in order, separated by ", ". */
  function JoinErrors(errors: seq<FieldError>): (r: string)
    ensures errors == [] <==> r == ""
    ensures errors != [] ==> errors[0].path + ": " + errors[0].message <= r
    ensures |errors| == 1 ==> r == errors[0].path + ": " + errors[0].message
    ensures |errors| > 1 ==>
      r == errors[0].path + ": " + errors[0].message + ", " + JoinErrors(errors[1..])
  {
    if errors == [] then ""
    else
      var head := errors[0].path + ": " + errors[0].message;
      if |errors| == 1 then head else head + ", " + JoinErrors(errors[1..])
  }

  // ---- bcrypt ----

  /** `bcrypt.hash(password, salt)`. */
  function Hash(password: Secret, salt: nat): Secret
  {
    Digest(password, salt)
  }

  /** `bcrypt.compare(candidate, stored)`: true only of the digest of that very plaintext. */
  function Matches(candidate: string, stored: Secret): (r: bool)
    ensures r <==> exists salt: nat :: stored == Hash(Plain(candidate), salt)
  {
    if stored.Digest? && stored.source == Plain(candidate) then
      assert stored == Hash(Plain(candidate), stored.salt);
      true
    else false
  }

  /**
   * `user.comparePassword(password)`; bcryptjs rejects a missing candidate
   * with "Illegal arguments: undefined, string".
   */
  function ComparePassword(user: UserRecord, candidate: Option<string>): (r: Result<bool, string>)
    ensures candidate.None? <==> r.Failure?
    ensures r.Success? ==> (r.value <==> Matches(candidate.value, user.password))
  {
    match candidate
    case None => Failure("Illegal arguments: undefined, string")
    case Some(c) => Success(Matches(c, user.password))
  }

  /** `User.create(input)`: validate, then let the pre-save hook hash the new password. */
  function Create(input: UserInput, id: UserId, salt: nat): (r: Result<UserRecord, seq<FieldError>>)
    ensures r.Success? <==> Acceptable(input)
    ensures r.Success? ==> Matches(input.password.value, r.value.password)
    ensures r.Success? ==> forall p :: Matches(p, r.value.password) ==> p == input.password.value
  {
    match Validate(input, id)
    case Failure(e) => Failure(e)
    case Success(u) => Success(u.(password := Hash(u.password, salt)))
  }

  /** A Mongoose user document between construction and `save`. */
  class UserDocument {
    var id: UserId
    var name: string
    var email: string
    var password: Secret
    var role: Role
    var cartItems: seq<CartItem>
    /** What `this.isModified("password")` answers. */
    var passwordModified: bool

    function Record(): UserRecord
      reads this
    {
      UserRecord(id, name, email, password, role, cartItems)
    }

    /** A new document: every field it was built with counts as modified. */
    constructor (r: UserRecord)
      ensures Record() == r && passwordModified
    {
      id, name, email, password, role, cartItems := r.id, r.name, r.email, r.password, r.role, r.cartItems;
      passwordModified := true;
    }

    /** `pre("save")`: hash the password only when it was modified. */
    method PreSave(salt: nat)
      modifies this`password
      ensures !passwordModified ==> password == old(password)
      ensures passwordModified ==> password == Hash(old(password), salt)
    {
      if !passwordModified {
        return;
      }
      password := Hash(password, salt);
    }
  }
}
