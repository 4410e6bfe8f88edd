/** The two-step sign-up form of src/modules/auth/RegisterForm.tsx: the guards of
    `nextStep` and `handleSubmit`, and the role-dependent registration payload. */
module Registration {
  import opened Types

  /** The two roles the radio group offers. */
  datatype SignupRole = AsCustomer | AsProvider

  function RoleOf(r: SignupRole): Role
  {
    match r
    case AsCustomer => Customer
    case AsProvider => Provider
  }

  /** The fields spread into the payload for a provider. */
  datatype ProviderDetails = ProviderDetails(restaurant: string, address: string, phone: string)

  /** The JSON body of the registration request; `details` stands for the three optional keys. */
  datatype Payload = Payload(name: string, email: string, password: string, role: string, details: Option<ProviderDetails>)

  datatype RegisterRequest = RegisterRequest(path: string, verb: string, body: Payload)

  /** The answer to the POST: a throw (network or JSON), or a body. */
  datatype RegisterResponse = Threw | Json(success: bool, message: Option<string>)

  datatype Notice = Success(text: string) | Error(text: string)

  /** The step-one guards of `nextStep`: the message that keeps the form on step one, if any. */
  function NextStepRejection(name: string, email: string, password: string, confirmPassword: string): (m: Option<string>)
    ensures m.None? <==> name != "" && email != "" && password != "" && confirmPassword != "" && password == confirmPassword
    ensures (name == "" || email == "" || password == "" || confirmPassword == "") ==> m == Some("Please fill all fields")
    ensures name != "" && email != "" && password != "" && confirmPassword != "" && password != confirmPassword ==>
      m == Some("Passwords don't match")
  {
    if name == "" || email == "" || password == "" || confirmPassword == "" then Some("Please fill all fields")
    else if password != confirmPassword then Some("Passwords don't match")
    else None
  }

  /** `{ name, email, password, role, ...(role === "PROVIDER" && { restaurant, address, phone }) }`. */
  function PayloadOf(name: string, email: string, password: string, role: SignupRole,
                     restaurant: string, address: string, phone: string): (p: Payload)
    ensures p.name == name && p.email == email && p.password == password
    ensures p.role == RoleName(RoleOf(role))
    ensures p.details.Some? <==> role == AsProvider
    ensures p.details.Some? ==> p.details.value == ProviderDetails(restaurant, address, phone)
  {
    Payload(name, email, password, RoleName(RoleOf(role)),
      if role == AsProvider then Some(ProviderDetails(restaurant, address, phone)) else None)
  }

  /** The keys of the serialised body, in order. */
  function PayloadKeys(p: Payload): seq<string>
  {
    ["name", "email", "password", "role"] + if p.details.Some? then ["restaurant", "address", "phone"] else []
  }

  /** A customer's body has the four account keys; a provider's has the three shop keys besides. */
  lemma PayloadShape(name: string, email: string, password: string, role: SignupRole,
                     restaurant: string, address: string, phone: string)
    ensures var keys := PayloadKeys(PayloadOf(name, email, password, role, restaurant, address, phone));
      && keys[..4] == ["name", "email", "password", "role"]
      && (role == AsCustomer ==> |keys| == 4)
      && (role == AsProvider ==> |keys| == 7 && "restaurant" in keys && "address" in keys && "phone" in keys)
      && PayloadOf(name, email, password, role, restaurant, address, phone).role
         == (if role == AsProvider then "PROVIDER" else "CUSTOMER")
  {
    var keys := PayloadKeys(PayloadOf(name, email, password, role, restaurant, address, phone));
    if role == AsProvider {
      assert keys[4] == "restaurant" && keys[5] == "address" && keys[6] == "phone";
    }
  }

  /** The toast after the server answered. */
  function ResponseNotice(r: RegisterResponse): (n: Notice)
    ensures n.Success? <==> r.Json? && r.success
    ensures r.Json? && !r.success && r.message.Some? && r.message.value != "" ==> n == Error(r.message.value)
  {
    match r
    case Threw => Error("Something went wrong")
    case Json(ok, m) =>
      if ok then Success("Account created successfully! Please login.")
      else if m.Some? && m.value != "" then Error(m.value)
      else Error("Registration failed")
  }

  class RegisterForm {
    var step: int
    var role: SignupRole
    var isLoading: bool
    var name: string
    var email: string
    var password: string
    var confirmPassword: string
    var restaurant: string
    var address: string
    var phone: string

    /** The form is on step one or on step two. */
    predicate Valid()
      reads this
    {
      step == 1 || step == 2
    }

    constructor ()
      ensures Valid() && step == 1 && role == AsCustomer && !isLoading
      ensures name == "" && email == "" && password == "" && confirmPassword == ""
      ensures restaurant == "" && address == "" && phone == ""
    {
      step := 1;
      role := AsCustomer;
      isLoading := false;
      name, email, password, confirmPassword := "", "", "", "";
      restaurant, address, phone := "", "", "";
    }

    method SetRole(r: SignupRole)
      modifies this`role
      ensures role == r
    {
      role := r;
    }

    /** "Continue": step two only with every account field filled and matching passwords. */
    method NextStep() returns (notice: Option<string>)
      requires Valid()
      modifies this`step
      ensures Valid()
      ensures notice == NextStepRejection(name, email, password, confirmPassword)
      ensures step == if notice.None? then 2 else old(step)
    {
      if name == "" || email == "" || password == "" || confirmPassword == "" {
        return Some("Please fill all fields");
      }
      if password != confirmPassword {
        return Some("Passwords don't match");
      }
      step := 2;
      notice := None;
    }

    /** "Back". */
    method Back()
      modifies this`step
      ensures Valid() && step == 1
    {
      step := 1;
    }

    /** `handleSubmit`: no request with mismatched passwords; otherwise the POST, the toast
        for its answer, `/login` on success, and `isLoading` ended by the `finally`. */
    method HandleSubmit(response: RegisterResponse)
      returns (request: Option<RegisterRequest>, notice: Notice, navigate: Option<string>)
      modifies this`isLoading
      ensures password != confirmPassword ==>
        request.None? && notice == Error("Passwords don't match") && navigate.None? && isLoading == old(isLoading)
      ensures password == confirmPassword ==>
        && request == Some(RegisterRequest("/api/auth/register", "POST",
             PayloadOf(name, email, password, role, restaurant, address, phone)))
        && notice == ResponseNotice(response)
        && (navigate.Some? <==> response.Json? && response.success)
        && (navigate.Some? ==> navigate.value == "/login")
        && !isLoading
    {
      if password != confirmPassword {
        return None, Error("Passwords don't match"), None;
      }
      isLoading := true;
      request := Some(RegisterRequest("/api/auth/register", "POST",
        PayloadOf(name, email, password, role, restaurant, address, phone)));
      notice := ResponseNotice(response);
      navigate := None;
      if response.Json? && response.success {
        navigate := Some("/login");
      }
      isLoading := false;
    }
  }

  /** Passing step one already rules out the submit's password guard. */
  lemma ContinuedImpliesMatching(name: string, email: string, password: string, confirmPassword: string)
    requires NextStepRejection(name, email, password, confirmPassword).None?
    ensures password == confirmPassword && password != ""
  {
  }
}
